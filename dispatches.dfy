/** The order in which the solver dispatches its kernels, and which buffer
    each dispatch is bound to. The render pass records every dispatch in a
    ghost log; the functions here give the log each operation must produce,
    and the lemmas state what those logs guarantee. */
module Dispatches {
  import opened Kernels

  /** The five buffers of the render pass. */
  datatype BufferName = Temp | Velocity | Divergence | Pressure | Density

  /** One kernel dispatch, with the buffers it was bound to. */
  datatype Dispatch =
    | AddVelocityK(velocitySource: VelocitySource, target: BufferName)
    | AddDensityK(densitySource: DensitySource, target: BufferName)
    | BoundaryK(scale: real, buffer: BufferName)
    | JacobiK(factors: Factors, current: BufferName, rhs: BufferName, result: BufferName)
    | AdvectK(dissipation: real, deltaTime: real, source: BufferName, velocity: BufferName, advected: BufferName)
    | DivergenceK(raw: BufferName, divergence: BufferName)
    | FreeDivergenceK(velocity: BufferName, pressure: BufferName, result: BufferName)
    | CopyK(copySource: BufferName, copyDestination: BufferName)
    | ClearK(value: Vec4, buffer: BufferName)

  /** Appending to a log in two steps or in one. */
  lemma AppendAssoc(log: seq<Dispatch>, a: seq<Dispatch>, b: seq<Dispatch>)
    ensures (log + a) + b == log + (a + b)
  {
  }

  /** The one buffer a dispatch writes. */
  function Written(d: Dispatch): (r: BufferName)
  {
    match d
    case AddVelocityK(_, t) => t
    case AddDensityK(_, t) => t
    case BoundaryK(_, b) => b
    case JacobiK(_, _, _, r) => r
    case AdvectK(_, _, _, _, a) => a
    case DivergenceK(_, dv) => dv
    case FreeDivergenceK(_, _, r) => r
    case CopyK(_, dst) => dst
    case ClearK(_, b) => b
  }

  /** The buffer read as current by sweep `i` of a ping-pong loop over `b`:
      `resultInTempBuffer` is true during even sweeps. */
  function PingPongCurrent(b: BufferName, i: nat): (r: BufferName)
  {
    if i % 2 == 0 then b else Temp
  }

  /** The buffer written by sweep `i` of a ping-pong loop over `b`. */
  function PingPongResult(b: BufferName, i: nat): (r: BufferName)
  {
    if i % 2 == 0 then Temp else b
  }

  /** Sweep n-1 writes the buffer sweep n reads. */
  lemma PingPongLast(b: BufferName, n: nat)
    requires n > 0
    ensures PingPongResult(b, n - 1) == PingPongCurrent(b, n)
  {
  }

  /** The copy back from the scratch buffer after `n` sweeps over `b`. */
  function CopyBack(b: BufferName, n: nat): (r: seq<Dispatch>)
  {
    if n % 2 == 1 then [CopyK(Temp, b)] else []
  }

  // ---- Diffuse ----

  /** Sweep `i` of Diffuse on `b`: the right-hand side is bound to the same
      buffer as the current iterate. */
  function DiffuseSweep(f: Factors, b: BufferName, i: nat): (r: Dispatch)
  {
    JacobiK(f, PingPongCurrent(b, i), PingPongCurrent(b, i), PingPongResult(b, i))
  }

  function DiffuseSweeps(f: Factors, b: BufferName, n: nat): (r: seq<Dispatch>)
    ensures |r| == n
  {
    if n == 0 then [] else DiffuseSweeps(f, b, n - 1) + [DiffuseSweep(f, b, n - 1)]
  }

  function DiffuseTrace(f: Factors, b: BufferName, n: nat): (r: seq<Dispatch>)
  {
    DiffuseSweeps(f, b, n) + CopyBack(b, n) + [ClearK(Zero, Temp)]
  }

  lemma {:induction false} DiffuseSweepsAt(f: Factors, b: BufferName, n: nat, j: nat)
    requires j < n
    ensures DiffuseSweeps(f, b, n)[j] == DiffuseSweep(f, b, j)
  {
    if j < n - 1 {
      DiffuseSweepsAt(f, b, n - 1, j);
    }
  }

  /** Diffuse alternates: sweep j reads `b` and writes the scratch buffer when
      j is even, the other way round when j is odd; every sweep reads what the
      previous one wrote, and reads its right-hand side from its own input. */
  lemma DiffusePingPong(f: Factors, b: BufferName, n: nat)
    requires b != Temp
    ensures forall j :: 0 <= j < n ==>
      var s := DiffuseSweeps(f, b, n)[j];
      s.JacobiK? && s.factors == f && s.rhs == s.current &&
      (s.current == b <==> j % 2 == 0) && (s.result == Temp <==> j % 2 == 0) &&
      s.current != s.result
    ensures forall j :: 0 < j < n ==>
      DiffuseSweeps(f, b, n)[j].current == DiffuseSweeps(f, b, n)[j - 1].result
  {
    forall j | 0 <= j < n
      ensures DiffuseSweeps(f, b, n)[j] == DiffuseSweep(f, b, j)
    {
      DiffuseSweepsAt(f, b, n, j);
    }
  }

  /** The result is copied back from the scratch buffer exactly when the
      number of sweeps is odd. */
  lemma DiffuseCopiesBackIffOdd(f: Factors, b: BufferName, n: nat)
    requires b != Temp
    ensures CopyK(Temp, b) in DiffuseTrace(f, b, n) <==> n % 2 == 1
  {
    var sweeps := DiffuseSweeps(f, b, n);
    var tail := CopyBack(b, n) + [ClearK(Zero, Temp)];
    assert DiffuseTrace(f, b, n) == sweeps + tail;
    assert CopyK(Temp, b) !in sweeps by {
      forall j | 0 <= j < n ensures sweeps[j] != CopyK(Temp, b) {
        DiffuseSweepsAt(f, b, n, j);
      }
    }
    if n % 2 == 1 {
      assert tail == [CopyK(Temp, b), ClearK(Zero, Temp)];
    } else {
      assert tail == [ClearK(Zero, Temp)];
    }
  }

  /** The last sweep writes `b` itself exactly when the number of sweeps is
      even, and the scratch buffer is cleared last. */
  lemma DiffuseEndsInPlace(f: Factors, b: BufferName, n: nat)
    requires b != Temp
    ensures n > 0 ==> DiffuseSweeps(f, b, n)[n - 1].result == (if n % 2 == 0 then b else Temp)
    ensures DiffuseTrace(f, b, n)[|DiffuseTrace(f, b, n)| - 1] == ClearK(Zero, Temp)
  {
    if n > 0 {
      DiffuseSweepsAt(f, b, n, n - 1);
    }
  }

  /** With no sweeps Diffuse issues no sweep and no copy, only the clear of
      the scratch buffer, so `b` is never written. */
  lemma DiffuseWithoutSweeps(f: Factors, b: BufferName)
    requires b != Temp
    ensures DiffuseTrace(f, b, 0) == [ClearK(Zero, Temp)]
    ensures forall e :: e in DiffuseTrace(f, b, 0) ==> Written(e) != b
  {
    assert DiffuseSweeps(f, b, 0) == [];
  }

  /** Everything Diffuse on `b` writes is `b` or the scratch buffer. */
  lemma {:induction false} DiffuseTraceWrites(f: Factors, b: BufferName, n: nat)
    ensures forall e :: e in DiffuseTrace(f, b, n) ==> Written(e) == b || Written(e) == Temp
  {
    DiffuseSweepsWrites(f, b, n);
  }

  lemma {:induction false} DiffuseSweepsWrites(f: Factors, b: BufferName, n: nat)
    ensures forall e :: e in DiffuseSweeps(f, b, n) ==> Written(e) == b || Written(e) == Temp
  {
    if n > 0 {
      DiffuseSweepsWrites(f, b, n - 1);
    }
  }

  // ---- Advect ----

  /** Advect writes the scratch buffer only, copies it into the source and
      clears it. */
  function AdvectTrace(dissipation: real, deltaTime: real, src: BufferName, vel: BufferName): (r: seq<Dispatch>)
  {
    [AdvectK(dissipation, deltaTime, src, vel, Temp)] + [CopyK(Temp, src)] + [ClearK(Zero, Temp)]
  }

  // ---- Project ----

  /** Sweep `i` of the pressure solve: mirror the borders of the buffer about
      to be read as current, then relax it against `d`. */
  function ProjectSweep(f: Factors, p: BufferName, d: BufferName, i: nat): (r: seq<Dispatch>)
  {
    [BoundaryK(1.0, PingPongCurrent(p, i)), JacobiK(f, PingPongCurrent(p, i), d, PingPongResult(p, i))]
  }

  function ProjectSweeps(f: Factors, p: BufferName, d: BufferName, n: nat): (r: seq<Dispatch>)
    ensures |r| == 2 * n
  {
    if n == 0 then [] else ProjectSweeps(f, p, d, n - 1) + ProjectSweep(f, p, d, n - 1)
  }

  /** The pressure solve inside Project: the sweeps, the copy back and the
      clear of the scratch buffer. */
  function PressureSolveTrace(f: Factors, p: BufferName, d: BufferName, n: nat): (r: seq<Dispatch>)
  {
    ProjectSweeps(f, p, d, n) + CopyBack(p, n) + [ClearK(Zero, Temp)]
  }

  function ProjectTrace(f: Factors, v: BufferName, d: BufferName, p: BufferName, n: nat): (r: seq<Dispatch>)
  {
    [DivergenceK(v, d)] + PressureSolveTrace(f, p, d, n)
    + [BoundaryK(1.0, p)] + [FreeDivergenceK(v, p, Temp)] + [CopyK(Temp, v)] + [ClearK(Zero, Temp)]
  }

  lemma {:induction false} ProjectSweepsAt(f: Factors, p: BufferName, d: BufferName, n: nat, j: nat)
    requires j < n
    ensures ProjectSweeps(f, p, d, n)[2 * j] == BoundaryK(1.0, PingPongCurrent(p, j))
    ensures ProjectSweeps(f, p, d, n)[2 * j + 1] == JacobiK(f, PingPongCurrent(p, j), d, PingPongResult(p, j))
  {
    if j < n - 1 {
      ProjectSweepsAt(f, p, d, n - 1, j);
    }
  }

  /** Sweep j of the pressure loop is a Jacobi sweep against `d`, directly
      preceded by a border mirror (scale +1) of the buffer that sweep reads;
      the first sweep reads `p` (the warm start) and every later sweep reads
      what the previous one wrote. */
  lemma ProjectBoundaryBeforeEverySweep(f: Factors, p: BufferName, d: BufferName, n: nat, j: nat)
    requires p != Temp && j < n
    ensures var t := ProjectSweeps(f, p, d, n);
      t[2 * j + 1].JacobiK? && t[2 * j + 1].factors == f && t[2 * j + 1].rhs == d &&
      t[2 * j + 1].current != t[2 * j + 1].result &&
      t[2 * j] == BoundaryK(1.0, t[2 * j + 1].current) &&
      (j == 0 ==> t[1].current == p) &&
      (j > 0 ==> t[2 * j - 1].JacobiK? && t[2 * j + 1].current == t[2 * j - 1].result)
  {
    ProjectSweepsAt(f, p, d, n, j);
    if j > 0 {
      ProjectSweepsAt(f, p, d, n, j - 1);
      assert 2 * (j - 1) + 1 == 2 * j - 1;
    }
  }

  lemma {:induction false} ProjectSweepsShape(f: Factors, p: BufferName, d: BufferName, n: nat)
    ensures forall e :: e in ProjectSweeps(f, p, d, n) ==>
      (e.BoundaryK? && e.scale == 1.0 && (e.buffer == p || e.buffer == Temp)) ||
      (e.JacobiK? && e.rhs == d && (e.result == p || e.result == Temp))
  {
    if n > 0 {
      ProjectSweepsShape(f, p, d, n - 1);
    }
  }

  /** Project never clears or resets the pressure buffer: whatever writes it
      is a border mirror, a Jacobi sweep against `d`, or the copy back of the
      last iterate. Only the scratch buffer is ever cleared. */
  lemma ProjectNeverResetsPressure(f: Factors, v: BufferName, d: BufferName, p: BufferName, n: nat)
    requires v != p && d != p && p != Temp
    ensures forall e :: e in ProjectTrace(f, v, d, p, n) && Written(e) == p ==>
      e.BoundaryK? || (e.JacobiK? && e.rhs == d) || e == CopyK(Temp, p)
    ensures forall e :: e in ProjectTrace(f, v, d, p, n) && e.ClearK? ==> e.buffer == Temp
  {
    ProjectSweepsShape(f, p, d, n);
  }

  /** Everything Project writes is one of its three buffers or scratch. */
  lemma ProjectTraceWrites(f: Factors, v: BufferName, d: BufferName, p: BufferName, n: nat)
    ensures forall e :: e in ProjectTrace(f, v, d, p, n) ==>
      Written(e) == v || Written(e) == d || Written(e) == p || Written(e) == Temp
  {
    ProjectSweepsShape(f, p, d, n);
  }

  // ---- The two steps of a frame ----

  function VelocityStepTrace(src: VelocitySource, fd: Factors, fp: Factors, dt: real, n: nat): (r: seq<Dispatch>)
  {
    [AddVelocityK(src, Velocity)] + [BoundaryK(-1.0, Velocity)]
    + DiffuseTrace(fd, Velocity, n)
    + [BoundaryK(-1.0, Velocity)]
    + ProjectTrace(fp, Velocity, Divergence, Pressure, n)
    + AdvectTrace(0.999, dt, Velocity, Velocity)
    + [BoundaryK(-1.0, Velocity)]
    + ProjectTrace(fp, Velocity, Divergence, Pressure, n)
  }

  function DensityStepTrace(src: DensitySource, fd: Factors, dt: real, n: nat): (r: seq<Dispatch>)
  {
    [AddDensityK(src, Density)] + [BoundaryK(0.0, Density)]
    + DiffuseTrace(fd, Density, n)
    + [BoundaryK(0.0, Density)]
    + AdvectTrace(0.996, dt, Density, Velocity)
    + [BoundaryK(0.0, Density)]
  }

  /** The velocity step never writes the density buffer. */
  lemma VelocityStepLeavesDensity(src: VelocitySource, fd: Factors, fp: Factors, dt: real, n: nat)
    ensures forall e :: e in VelocityStepTrace(src, fd, fp, dt, n) ==> Written(e) != Density
  {
    DiffuseTraceWrites(fd, Velocity, n);
    ProjectTraceWrites(fp, Velocity, Divergence, Pressure, n);
  }

  /** The density step writes only the density and scratch buffers: it reads
      the velocity but never changes it. */
  lemma DensityStepWrites(src: DensitySource, fd: Factors, dt: real, n: nat)
    ensures forall e :: e in DensityStepTrace(src, fd, dt, n) ==>
      Written(e) == Density || Written(e) == Temp
  {
    DiffuseTraceWrites(fd, Density, n);
  }
}
