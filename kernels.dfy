/** Cells, fields and the compute-shader kernels of the fluid solver.

    The kernels' formulas (Jacobi stencil, semi-Lagrangian advection,
    divergence, gradient subtraction, border rules, source falloff) live in
    compute shaders outside this model. Each kernel is therefore a parameter:
    an arbitrary function giving the value that the worker for cell `i`
    writes, computed from whole snapshots of the buffers bound as its inputs.
    Everything proved about the solver holds for every choice of kernels. */
module Kernels {

  /** One buffer cell: every buffer holds four floats per cell. */
  datatype Vec4 = Vec4(x: real, y: real, z: real, w: real)

  datatype Vec2 = Vec2(x: real, y: real)

  /** The clear value the solver uses (`Vector4.zero`). */
  const Zero: Vec4 := Vec4(0.0, 0.0, 0.0, 0.0)

  /** The contents of one buffer, in row-major cell order. */
  type Field = seq<Vec4>

  /** What the Jacobi kernel's CenterFactor and DiagonalFactor are derived
      from. The float formulas themselves are left to the kernel. */
  datatype Factors =
    | Diffusion(viscosity: real, deltaTime: real)
    | PressureSolve(gridScale: nat)

  /** The uniforms of the AddVelocity kernel. */
  datatype VelocitySource = VelocitySource(
    current: Vec2, previous: Vec2, pressed: real,
    radius: real, falloff: real, multiplier: real)

  /** The uniforms of the AddDensity kernel. */
  datatype DensitySource = DensitySource(
    color: Vec4, position: Vec2, pressed: real, radius: real, falloff: real)

  /** The kernels, each as the value it writes into output cell `i`. */
  datatype Shaders = Shaders(
    addVelocity: (VelocitySource, Field, nat) -> Vec4,
    addDensity: (DensitySource, Field, nat) -> Vec4,
    boundary: (real, Field, nat) -> Vec4,
    jacobi: (Factors, Field, Field, nat) -> Vec4,
    advect: (real, real, Field, Field, nat) -> Vec4,
    divergence: (Field, nat) -> Vec4,
    freeDivergence: (Field, Field, nat) -> Vec4)

  /** A field of `n` cells that all hold `v`. */
  function Filled(v: Vec4, n: nat): (r: Field)
    ensures |r| == n
    ensures forall i :: 0 <= i < n ==> r[i] == v
  {
    seq(n, _ => v)
  }

  // One launch of each kernel over every cell of its output, as a whole field.

  function AddVelocityOf(k: Shaders, src: VelocitySource, f: Field): (r: Field)
    ensures |r| == |f|
  {
    seq(|f|, i requires 0 <= i => k.addVelocity(src, f, i))
  }

  function AddDensityOf(k: Shaders, src: DensitySource, f: Field): (r: Field)
    ensures |r| == |f|
  {
    seq(|f|, i requires 0 <= i => k.addDensity(src, f, i))
  }

  function BoundaryOf(k: Shaders, scale: real, f: Field): (r: Field)
    ensures |r| == |f|
  {
    seq(|f|, i requires 0 <= i => k.boundary(scale, f, i))
  }

  function JacobiOf(k: Shaders, factors: Factors, current: Field, rhs: Field): (r: Field)
    ensures |r| == |current|
  {
    seq(|current|, i requires 0 <= i => k.jacobi(factors, current, rhs, i))
  }

  function AdvectOf(k: Shaders, dissipation: real, deltaTime: real, source: Field, velocity: Field): (r: Field)
    ensures |r| == |source|
  {
    seq(|source|, i requires 0 <= i => k.advect(dissipation, deltaTime, source, velocity, i))
  }

  function DivergenceOf(k: Shaders, raw: Field): (r: Field)
    ensures |r| == |raw|
  {
    seq(|raw|, i requires 0 <= i => k.divergence(raw, i))
  }

  function FreeDivergenceOf(k: Shaders, velocity: Field, pressure: Field): (r: Field)
    ensures |r| == |velocity|
  {
    seq(|velocity|, i requires 0 <= i => k.freeDivergence(velocity, pressure, i))
  }

  /** The n-th diffusion iterate of `x`. The right-hand side of every sweep
      is the sweep's own current iterate, so each sweep is a function of one
      field only. */
  function DiffusionIterate(k: Shaders, factors: Factors, x: Field, n: nat): (r: Field)
    ensures |r| == |x|
  {
    if n == 0 then x
    else
      var y := DiffusionIterate(k, factors, x, n - 1);
      JacobiOf(k, factors, y, y)
  }

  /** One sweep of the pressure solve: mirror the borders of the current
      iterate `x` (scale +1), then relax it against the right-hand side. */
  function PressureSweepOf(k: Shaders, factors: Factors, x: Field, rhs: Field): (r: Field)
    ensures |r| == |x|
  {
    JacobiOf(k, factors, BoundaryOf(k, 1.0, x), rhs)
  }

  /** The n-th pressure iterate from the warm start `p` against the fixed
      right-hand side `rhs`. */
  function PressureIterate(k: Shaders, factors: Factors, p: Field, rhs: Field, n: nat): (r: Field)
    ensures |r| == |p|
  {
    if n == 0 then p
    else PressureSweepOf(k, factors, PressureIterate(k, factors, p, rhs, n - 1), rhs)
  }

  /** The three buffers Project leaves behind. */
  datatype Projection = Projection(velocity: Field, divergence: Field, pressure: Field)

  /** Project of velocity `v` with warm-start pressure `p` and `n` sweeps. */
  function ProjectOf(k: Shaders, f: Factors, n: nat, v: Field, p: Field): (r: Projection)
  {
    var d := DivergenceOf(k, v);
    var pressure := BoundaryOf(k, 1.0, PressureIterate(k, f, p, d, n));
    Projection(FreeDivergenceOf(k, v, pressure), d, pressure)
  }

  /** The velocity, divergence and pressure after one VelocityStep. */
  function VelocityStepOf(k: Shaders, src: VelocitySource, fd: Factors, fp: Factors, dt: real, n: nat,
                          v: Field, p: Field): (r: Projection)
  {
    var injected := BoundaryOf(k, -1.0, AddVelocityOf(k, src, v));
    var diffused := BoundaryOf(k, -1.0, DiffusionIterate(k, fd, injected, n));
    var first := ProjectOf(k, fp, n, diffused, p);
    var advected := BoundaryOf(k, -1.0, AdvectOf(k, 0.999, dt, first.velocity, first.velocity));
    ProjectOf(k, fp, n, advected, first.pressure)
  }

  /** The density after one DensityStep, transported by velocity `v`. */
  function DensityStepOf(k: Shaders, src: DensitySource, fd: Factors, dt: real, n: nat, d: Field, v: Field): (r: Field)
  {
    var injected := BoundaryOf(k, 0.0, AddDensityOf(k, src, d));
    var diffused := BoundaryOf(k, 0.0, DiffusionIterate(k, fd, injected, n));
    BoundaryOf(k, 0.0, AdvectOf(k, 0.996, dt, diffused, v))
  }
}
