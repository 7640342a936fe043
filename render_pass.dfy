/** The render pass that owns the solver's five buffers and decides, for
    every kernel it dispatches, which buffers the kernel reads and writes, in
    what order the kernels run, and when results are copied back and the
    scratch buffer cleared. */
module FluidSolver {
  import opened Kernels
  import opened Dispatches
  import Setup

  /** The tunable values copied from FluidSimulationSettings each frame. */
  datatype Settings = Settings(
    viscosity: real, deltaTime: real, solverIterations: int,
    velocityEffectRadius: real, velocityFalloff: real, velocityMultiplier: real,
    densityEffectRadius: real, densityFalloff: real)

  /** How many times `for (int i = 0; i < n; i++)` runs its body. */
  function SweepCount(n: int): (r: nat)
    ensures n <= 0 ==> r == 0
    ensures n >= 0 ==> r == n
  {
    if n < 0 then 0 else n
  }

  /** `Mathf.Clamp01`. */
  function Clamp01(x: real): (r: real)
    ensures 0.0 <= r <= 1.0
    ensures 0.0 <= x <= 1.0 ==> r == x
    ensures x < 0.0 ==> r == 0.0
    ensures x > 1.0 ==> r == 1.0
  {
    if x < 0.0 then 0.0 else if x > 1.0 then 1.0 else x
  }

  /** One viewport coordinate clamped to [0, 1] and scaled to grid units. */
  function ToGrid(v: real, resolution: real): (r: real)
    requires 0.0 <= resolution
    ensures 0.0 <= r <= resolution
    ensures 0.0 <= v <= 1.0 ==> r == v * resolution
  {
    var c := Clamp01(v);
    ScaledUnitInterval(c, resolution);
    c * resolution
  }

  lemma ScaledUnitInterval(c: real, m: real)
    requires 0.0 <= c <= 1.0 && 0.0 <= m
    ensures 0.0 <= c * m <= m
  {
    assert m - c * m == (1.0 - c) * m;
  }

  /** A viewport point clamped to the unit square and scaled to grid units. */
  function GridPosition(viewport: Vec2, resolution: nat): (r: Vec2)
    ensures 0.0 <= r.x <= resolution as real && 0.0 <= r.y <= resolution as real
    ensures 0.0 <= viewport.x <= 1.0 ==> r.x == viewport.x * resolution as real
    ensures 0.0 <= viewport.y <= 1.0 ==> r.y == viewport.y * resolution as real
  {
    Vec2(ToGrid(viewport.x, resolution as real), ToGrid(viewport.y, resolution as real))
  }

  /** GridPosition is the clamped point scaled axis by axis. */
  lemma GridPositionSteps(viewport: Vec2, resolution: nat)
    ensures GridPosition(viewport, resolution) ==
      Vec2(Clamp01(viewport.x) * resolution as real, Clamp01(viewport.y) * resolution as real)
  {
  }

  class FluidSimulationRenderPass {
    /** The compute shaders taken from the settings. */
    const shaders: Shaders

    const renderResolution: nat
    const simulationResolution: nat
    const threadNum: nat
    /** Cells per buffer. */
    const cells: nat
    const gridScale: nat
    const threadGroupNum: nat
    const renderThreadGroupNum: nat

    const tempBuffer: array<Vec4>
    const velocityBuffer: array<Vec4>
    const divergenceBuffer: array<Vec4>
    const pressureBuffer: array<Vec4>
    const densityBuffer: array<Vec4>

    var viscosity: real
    var deltaTime: real
    var solverIterations: int
    var velocityEffectRadius: real
    var velocityFalloff: real
    var velocityMultiplier: real
    var densityEffectRadius: real
    var densityFalloff: real

    var velocityPressed: real
    var densityPressed: real
    var currentMousePosition: Vec2
    var previousMousePosition: Vec2
    var densityColor: Vec4

    /** Every kernel dispatched so far, with its buffer bindings. */
    ghost var log: seq<Dispatch>

    function Buf(b: BufferName): (r: array<Vec4>)
    {
      match b
      case Temp => tempBuffer
      case Velocity => velocityBuffer
      case Divergence => divergenceBuffer
      case Pressure => pressureBuffer
      case Density => densityBuffer
    }

    /** Five distinct buffers of `cells` cells each. */
    ghost predicate Valid()
    {
      tempBuffer != velocityBuffer && tempBuffer != divergenceBuffer &&
      tempBuffer != pressureBuffer && tempBuffer != densityBuffer &&
      velocityBuffer != divergenceBuffer && velocityBuffer != pressureBuffer &&
      velocityBuffer != densityBuffer && divergenceBuffer != pressureBuffer &&
      divergenceBuffer != densityBuffer && pressureBuffer != densityBuffer &&
      tempBuffer.Length == velocityBuffer.Length == divergenceBuffer.Length ==
      pressureBuffer.Length == densityBuffer.Length == cells
    }

    lemma Distinct(a: BufferName, b: BufferName)
      requires Valid()
      ensures a != b <==> Buf(a) != Buf(b)
      ensures Buf(a).Length == cells
    {
    }

    function Iterations(): (r: nat)
      reads this`solverIterations
    {
      SweepCount(solverIterations)
    }

    function DiffusionFactors(): (r: Factors)
      reads this`viscosity, this`deltaTime
    {
      Diffusion(viscosity, deltaTime)
    }

    function PressureFactors(): (r: Factors)
    {
      PressureSolve(gridScale)
    }

    function VelocityUniforms(): (r: VelocitySource)
      reads this`currentMousePosition, this`previousMousePosition, this`velocityPressed
      reads this`velocityEffectRadius, this`velocityFalloff, this`velocityMultiplier
    {
      VelocitySource(currentMousePosition, previousMousePosition, velocityPressed,
                     velocityEffectRadius, velocityFalloff, velocityMultiplier)
    }

    function DensityUniforms(): (r: DensitySource)
      reads this`densityColor, this`currentMousePosition, this`densityPressed
      reads this`densityEffectRadius, this`densityFalloff
    {
      DensitySource(densityColor, currentMousePosition, densityPressed,
                    densityEffectRadius, densityFalloff)
    }

    /** The constructor with Initialize: the field defaults, then the five
        buffers of simulationResolution² cells and the derived counts. The
        counts come from the rounded-up reading of Initialize; for the
        hard-coded resolutions the code's own reading gives the same values
        (Setup.DefaultSetup). */
    constructor (shaders: Shaders)
      ensures Valid()
      ensures this.shaders == shaders
      ensures renderResolution == 1024 && simulationResolution == 512 && threadNum == 8
      ensures cells == simulationResolution * simulationResolution == 262144
      ensures gridScale == 2 && threadGroupNum == 64 && renderThreadGroupNum == 128
      ensures fresh(tempBuffer) && fresh(velocityBuffer) && fresh(divergenceBuffer)
      ensures fresh(pressureBuffer) && fresh(densityBuffer)
      ensures viscosity == 0.05 && deltaTime == 0.5 && solverIterations == 50
      ensures velocityEffectRadius == 15.0 && velocityFalloff == 3.0 && velocityMultiplier == 1.0
      ensures densityEffectRadius == 30.0 && densityFalloff == 5.0
      ensures velocityPressed == 0.0 && densityPressed == 0.0
      ensures currentMousePosition == Vec2(0.0, 0.0) && previousMousePosition == Vec2(0.0, 0.0)
      ensures densityColor == Vec4(0.0, 1.0, 1.0, 1.0)
      ensures log == []
    {
      this.shaders := shaders;
      renderResolution, simulationResolution, threadNum := 1024, 512, 8;
      var s := Setup.Initialize(1024, 512, 8);
      Setup.DefaultSetup();
      cells, gridScale := s.cellCount, s.gridScale;
      threadGroupNum, renderThreadGroupNum := s.threadGroupNum, s.renderThreadGroupNum;
      tempBuffer := new Vec4[s.cellCount](_ => Zero);
      velocityBuffer := new Vec4[s.cellCount](_ => Zero);
      divergenceBuffer := new Vec4[s.cellCount](_ => Zero);
      pressureBuffer := new Vec4[s.cellCount](_ => Zero);
      densityBuffer := new Vec4[s.cellCount](_ => Zero);
      viscosity, deltaTime, solverIterations := 0.05, 0.5, 50;
      velocityEffectRadius, velocityFalloff, velocityMultiplier := 15.0, 3.0, 1.0;
      densityEffectRadius, densityFalloff := 30.0, 5.0;
      velocityPressed, densityPressed := 0.0, 0.0;
      currentMousePosition, previousMousePosition := Vec2(0.0, 0.0), Vec2(0.0, 0.0);
      densityColor := Vec4(0.0, 1.0, 1.0, 1.0);
      log := [];
    }

    /** One kernel launch writing `value` into buffer `b`, one worker per
        cell, each writing only its own cell. */
    method Store(b: BufferName, value: Field)
      requires Valid() && |value| == cells
      modifies Buf(b)
      ensures Buf(b)[..] == value
    {
      var a := Buf(b);
      forall i | 0 <= i < a.Length {
        a[i] := value[i];
      }
    }

    // ---- Kernel dispatches, after their buffers are bound ----

    method DispatchJacobi(f: Factors, current: BufferName, rhs: BufferName, result: BufferName)
      requires Valid()
      modifies Buf(result), this`log
      ensures Buf(result)[..] == JacobiOf(shaders, f, old(Buf(current)[..]), old(Buf(rhs)[..]))
      ensures log == old(log) + [JacobiK(f, current, rhs, result)]
    {
      Store(result, JacobiOf(shaders, f, Buf(current)[..], Buf(rhs)[..]));
      log := log + [JacobiK(f, current, rhs, result)];
    }

    method DispatchAdvect(dissipation: real, source: BufferName, velocity: BufferName, advected: BufferName)
      requires Valid()
      modifies Buf(advected), this`log
      ensures Buf(advected)[..] == AdvectOf(shaders, dissipation, deltaTime, old(Buf(source)[..]), old(Buf(velocity)[..]))
      ensures log == old(log) + [AdvectK(dissipation, deltaTime, source, velocity, advected)]
    {
      Store(advected, AdvectOf(shaders, dissipation, deltaTime, Buf(source)[..], Buf(velocity)[..]));
      log := log + [AdvectK(dissipation, deltaTime, source, velocity, advected)];
    }

    method DispatchDivergence(raw: BufferName, divergence: BufferName)
      requires Valid()
      modifies Buf(divergence), this`log
      ensures Buf(divergence)[..] == DivergenceOf(shaders, old(Buf(raw)[..]))
      ensures log == old(log) + [DivergenceK(raw, divergence)]
    {
      Store(divergence, DivergenceOf(shaders, Buf(raw)[..]));
      log := log + [DivergenceK(raw, divergence)];
    }

    method DispatchFreeDivergence(velocity: BufferName, pressure: BufferName, result: BufferName)
      requires Valid()
      modifies Buf(result), this`log
      ensures Buf(result)[..] == FreeDivergenceOf(shaders, old(Buf(velocity)[..]), old(Buf(pressure)[..]))
      ensures log == old(log) + [FreeDivergenceK(velocity, pressure, result)]
    {
      Store(result, FreeDivergenceOf(shaders, Buf(velocity)[..], Buf(pressure)[..]));
      log := log + [FreeDivergenceK(velocity, pressure, result)];
    }

    // ---- The operations of the render pass ----

    method AddVelocity(b: BufferName)
      requires Valid()
      modifies Buf(b), this`log
      ensures Buf(b)[..] == AddVelocityOf(shaders, VelocityUniforms(), old(Buf(b)[..]))
      ensures log == old(log) + [AddVelocityK(VelocityUniforms(), b)]
    {
      Store(b, AddVelocityOf(shaders, VelocityUniforms(), Buf(b)[..]));
      log := log + [AddVelocityK(VelocityUniforms(), b)];
    }

    method AddDensity(b: BufferName)
      requires Valid()
      modifies Buf(b), this`log
      ensures Buf(b)[..] == AddDensityOf(shaders, DensityUniforms(), old(Buf(b)[..]))
      ensures log == old(log) + [AddDensityK(DensityUniforms(), b)]
    {
      Store(b, AddDensityOf(shaders, DensityUniforms(), Buf(b)[..]));
      log := log + [AddDensityK(DensityUniforms(), b)];
    }

    /** The border kernel reads and rewrites the one buffer it is bound to. */
    method Boundary(b: BufferName, scale: real)
      requires Valid()
      modifies Buf(b), this`log
      ensures Buf(b)[..] == BoundaryOf(shaders, scale, old(Buf(b)[..]))
      ensures log == old(log) + [BoundaryK(scale, b)]
    {
      Store(b, BoundaryOf(shaders, scale, Buf(b)[..]));
      log := log + [BoundaryK(scale, b)];
    }

    method CopyStructuredBuffer(copySource: BufferName, copyDestination: BufferName)
      requires Valid()
      modifies Buf(copyDestination), this`log
      ensures Buf(copyDestination)[..] == old(Buf(copySource)[..])
      ensures log == old(log) + [CopyK(copySource, copyDestination)]
    {
      Store(copyDestination, Buf(copySource)[..]);
      log := log + [CopyK(copySource, copyDestination)];
    }

    method ClearStructuredBuffer(clearValue: Vec4, clearBuffer: BufferName)
      requires Valid()
      modifies Buf(clearBuffer), this`log
      ensures Buf(clearBuffer)[..] == Filled(clearValue, cells)
      ensures log == old(log) + [ClearK(clearValue, clearBuffer)]
    {
      Store(clearBuffer, Filled(clearValue, cells));
      log := log + [ClearK(clearValue, clearBuffer)];
    }

    /** Diffuse ping-pongs between `b` and the scratch buffer, each sweep
        reading its right-hand side from its own current buffer; `b` ends with
        the n-th iterate and the scratch buffer cleared. */
    method Diffuse(b: BufferName)
      requires Valid() && b != Temp
      modifies Buf(b), tempBuffer, this`log
      ensures Buf(b)[..] == DiffusionIterate(shaders, DiffusionFactors(), old(Buf(b)[..]), Iterations())
      ensures tempBuffer[..] == Filled(Zero, cells)
      ensures log == old(log) + DiffuseTrace(DiffusionFactors(), b, Iterations())
    {
      var factors := Diffusion(viscosity, deltaTime);
      ghost var x0 := Buf(b)[..];
      ghost var log0 := log;
      var resultInTempBuffer := false;
      var i := 0;
      while i < solverIterations
        invariant 0 <= i <= Iterations()
        invariant resultInTempBuffer == (i % 2 == 1)
        invariant resultInTempBuffer ==> tempBuffer[..] == DiffusionIterate(shaders, factors, x0, i)
        invariant !resultInTempBuffer ==> Buf(b)[..] == DiffusionIterate(shaders, factors, x0, i)
        invariant log == log0 + DiffuseSweeps(factors, b, i)
      {
        ghost var logI := log;
        resultInTempBuffer := !resultInTempBuffer;
        if resultInTempBuffer {
          DispatchJacobi(factors, b, b, Temp);
        } else {
          DispatchJacobi(factors, Temp, Temp, b);
        }
        assert log == logI + [DiffuseSweep(factors, b, i)];
        i := i + 1;
      }
      ghost var sweeps := DiffuseSweeps(factors, b, i);
      ghost var logL := log;
      if resultInTempBuffer {
        CopyStructuredBuffer(Temp, b);
      }
      assert log == logL + CopyBack(b, i);
      AppendAssoc(log0, sweeps, CopyBack(b, i));
      ClearStructuredBuffer(Zero, Temp);
      AppendAssoc(log0, sweeps + CopyBack(b, i), [ClearK(Zero, Temp)]);
    }

    /** Advect writes the advected field into the scratch buffer only, then
        copies it into the source. The velocity buffer is left as it was
        unless it is the source itself. */
    method Advect(source: BufferName, velocity: BufferName, dissipation: real)
      requires Valid() && source != Temp && velocity != Temp
      modifies Buf(source), tempBuffer, this`log
      ensures Buf(source)[..] == AdvectOf(shaders, dissipation, deltaTime, old(Buf(source)[..]), old(Buf(velocity)[..]))
      ensures velocity != source ==> Buf(velocity)[..] == old(Buf(velocity)[..])
      ensures tempBuffer[..] == Filled(Zero, cells)
      ensures log == old(log) + AdvectTrace(dissipation, deltaTime, source, velocity)
    {
      Distinct(source, Temp); Distinct(velocity, Temp); Distinct(source, velocity);
      ghost var log0 := log;
      DispatchAdvect(dissipation, source, velocity, Temp);
      ghost var t := [AdvectK(dissipation, deltaTime, source, velocity, Temp)];
      CopyStructuredBuffer(Temp, source);
      AppendAssoc(log0, t, [CopyK(Temp, source)]);
      t := t + [CopyK(Temp, source)];
      ClearStructuredBuffer(Zero, Temp);
      AppendAssoc(log0, t, [ClearK(Zero, Temp)]);
      t := t + [ClearK(Zero, Temp)];
    }

    /** The pressure solve of Project: sweeps against `d` starting from what
        `p` already holds, mirroring the borders (scale +1) of the buffer
        about to be read before each sweep, then the copy back and the clear
        of the scratch buffer. */
    method RelaxPressure(d: BufferName, p: BufferName)
      requires Valid() && d != p && d != Temp && p != Temp
      modifies Buf(p), tempBuffer, this`log
      ensures Buf(p)[..] == PressureIterate(shaders, PressureFactors(), old(Buf(p)[..]), old(Buf(d)[..]), Iterations())
      ensures tempBuffer[..] == Filled(Zero, cells)
      ensures log == old(log) + PressureSolveTrace(PressureFactors(), p, d, Iterations())
    {
      Distinct(d, p); Distinct(d, Temp); Distinct(p, Temp);
      ghost var p0 := Buf(p)[..];
      ghost var rhs := Buf(d)[..];
      ghost var log0 := log;
      var factors := PressureSolve(gridScale);
      var resultInTempBuffer := false;
      var i := 0;
      while i < solverIterations
        invariant 0 <= i <= Iterations()
        invariant resultInTempBuffer == (i % 2 == 1)
        invariant Buf(d)[..] == rhs
        invariant resultInTempBuffer ==> tempBuffer[..] == PressureIterate(shaders, factors, p0, rhs, i)
        invariant !resultInTempBuffer ==> Buf(p)[..] == PressureIterate(shaders, factors, p0, rhs, i)
        invariant log == log0 + ProjectSweeps(factors, p, d, i)
      {
        ghost var logI := log;
        resultInTempBuffer := !resultInTempBuffer;
        if resultInTempBuffer {
          PressureSweep(factors, p, d, Temp);
        } else {
          PressureSweep(factors, Temp, d, p);
        }
        assert log == logI + ProjectSweep(factors, p, d, i);
        AppendAssoc(log0, ProjectSweeps(factors, p, d, i), ProjectSweep(factors, p, d, i));
        assert PressureIterate(shaders, factors, p0, rhs, i + 1) ==
          PressureSweepOf(shaders, factors, PressureIterate(shaders, factors, p0, rhs, i), rhs);
        i := i + 1;
      }
      ghost var sweeps := ProjectSweeps(factors, p, d, i);
      ghost var logL := log;
      if resultInTempBuffer {
        CopyStructuredBuffer(Temp, p);
      }
      assert log == logL + CopyBack(p, i);
      AppendAssoc(log0, sweeps, CopyBack(p, i));
      ClearStructuredBuffer(Zero, Temp);
      AppendAssoc(log0, sweeps + CopyBack(p, i), [ClearK(Zero, Temp)]);
    }

    /** One pressure sweep of Project's loop: mirror the borders (scale +1)
        of the buffer about to be read as the current iterate, then relax it
        against `rhs` into `result`. */
    method PressureSweep(factors: Factors, current: BufferName, rhs: BufferName, result: BufferName)
      requires Valid() && current != rhs && result != rhs && current != result
      modifies Buf(current), Buf(result), this`log
      ensures Buf(current)[..] == BoundaryOf(shaders, 1.0, old(Buf(current)[..]))
      ensures Buf(result)[..] == JacobiOf(shaders, factors, Buf(current)[..], old(Buf(rhs)[..]))
      ensures Buf(result)[..] == PressureSweepOf(shaders, factors, old(Buf(current)[..]), old(Buf(rhs)[..]))
      ensures log == old(log) + [BoundaryK(1.0, current), JacobiK(factors, current, rhs, result)]
    {
      Distinct(current, rhs); Distinct(result, rhs); Distinct(current, result);
      Boundary(current, 1.0);
      DispatchJacobi(factors, current, rhs, result);
    }

    /** Project: divergence of `v` into `d`, the pressure solve, one more
        border mirror of `p`, then the divergence-free velocity, staged
        through the scratch buffer and copied back. */
    method Project(v: BufferName, d: BufferName, p: BufferName)
      requires Valid()
      requires v != d && v != p && d != p && v != Temp && d != Temp && p != Temp
      modifies Buf(v), Buf(d), Buf(p), tempBuffer, this`log
      ensures Buf(v)[..] == ProjectOf(shaders, PressureFactors(), Iterations(), old(Buf(v)[..]), old(Buf(p)[..])).velocity
      ensures Buf(d)[..] == ProjectOf(shaders, PressureFactors(), Iterations(), old(Buf(v)[..]), old(Buf(p)[..])).divergence
      ensures Buf(p)[..] == ProjectOf(shaders, PressureFactors(), Iterations(), old(Buf(v)[..]), old(Buf(p)[..])).pressure
      ensures tempBuffer[..] == Filled(Zero, cells)
      ensures log == old(log) + ProjectTrace(PressureFactors(), v, d, p, Iterations())
    {
      Distinct(v, d); Distinct(v, p); Distinct(d, p);
      Distinct(v, Temp); Distinct(d, Temp); Distinct(p, Temp);
      ghost var log0 := log;
      ghost var f, n := PressureFactors(), Iterations();
      DispatchDivergence(v, d);
      ghost var t := [DivergenceK(v, d)];
      RelaxPressure(d, p);
      AppendAssoc(log0, t, PressureSolveTrace(f, p, d, n));
      t := t + PressureSolveTrace(f, p, d, n);
      Boundary(p, 1.0);
      AppendAssoc(log0, t, [BoundaryK(1.0, p)]);
      t := t + [BoundaryK(1.0, p)];
      DispatchFreeDivergence(v, p, Temp);
      AppendAssoc(log0, t, [FreeDivergenceK(v, p, Temp)]);
      t := t + [FreeDivergenceK(v, p, Temp)];
      CopyStructuredBuffer(Temp, v);
      AppendAssoc(log0, t, [CopyK(Temp, v)]);
      t := t + [CopyK(Temp, v)];
      ClearStructuredBuffer(Zero, Temp);
      AppendAssoc(log0, t, [ClearK(Zero, Temp)]);
      t := t + [ClearK(Zero, Temp)];
      assert t == ProjectTrace(f, v, d, p, n);
    }

    method VelocityStep()
      requires Valid()
      modifies velocityBuffer, divergenceBuffer, pressureBuffer, tempBuffer, this`log
      ensures var r := VelocityStepOf(shaders, VelocityUniforms(), DiffusionFactors(), PressureFactors(),
                                      deltaTime, Iterations(), old(velocityBuffer[..]), old(pressureBuffer[..]));
        velocityBuffer[..] == r.velocity && divergenceBuffer[..] == r.divergence &&
        pressureBuffer[..] == r.pressure
      ensures tempBuffer[..] == Filled(Zero, cells)
      ensures log == old(log) + VelocityStepTrace(VelocityUniforms(), DiffusionFactors(), PressureFactors(), deltaTime, Iterations())
    {
      ghost var k, src, fd, fp, dt, n := shaders, VelocityUniforms(), DiffusionFactors(), PressureFactors(), deltaTime, Iterations();
      ghost var v0, p0, log0 := velocityBuffer[..], pressureBuffer[..], log;
      AddVelocity(Velocity);
      ghost var t := [AddVelocityK(src, Velocity)];
      Boundary(Velocity, -1.0);
      AppendAssoc(log0, t, [BoundaryK(-1.0, Velocity)]);
      t := t + [BoundaryK(-1.0, Velocity)];
      ghost var injected := velocityBuffer[..];
      Diffuse(Velocity);
      AppendAssoc(log0, t, DiffuseTrace(fd, Velocity, n));
      t := t + DiffuseTrace(fd, Velocity, n);
      Boundary(Velocity, -1.0);
      AppendAssoc(log0, t, [BoundaryK(-1.0, Velocity)]);
      t := t + [BoundaryK(-1.0, Velocity)];
      ghost var diffused := velocityBuffer[..];
      assert diffused == BoundaryOf(k, -1.0, DiffusionIterate(k, fd, injected, n));
      Project(Velocity, Divergence, Pressure);
      assert VelocityUniforms() == src && DiffusionFactors() == fd && Iterations() == n;
      AppendAssoc(log0, t, ProjectTrace(fp, Velocity, Divergence, Pressure, n));
      t := t + ProjectTrace(fp, Velocity, Divergence, Pressure, n);
      ghost var first := ProjectOf(k, fp, n, diffused, p0);
      assert velocityBuffer[..] == first.velocity && pressureBuffer[..] == first.pressure;
      Advect(Velocity, Velocity, 0.999);
      AppendAssoc(log0, t, AdvectTrace(0.999, dt, Velocity, Velocity));
      t := t + AdvectTrace(0.999, dt, Velocity, Velocity);
      Boundary(Velocity, -1.0);
      AppendAssoc(log0, t, [BoundaryK(-1.0, Velocity)]);
      t := t + [BoundaryK(-1.0, Velocity)];
      ghost var advected := velocityBuffer[..];
      assert advected == BoundaryOf(k, -1.0, AdvectOf(k, 0.999, dt, first.velocity, first.velocity));
      Project(Velocity, Divergence, Pressure);
      assert VelocityUniforms() == src && DiffusionFactors() == fd && Iterations() == n;
      AppendAssoc(log0, t, ProjectTrace(fp, Velocity, Divergence, Pressure, n));
      t := t + ProjectTrace(fp, Velocity, Divergence, Pressure, n);
      assert t == VelocityStepTrace(src, fd, fp, dt, n);
      assert VelocityUniforms() == src && DiffusionFactors() == fd && Iterations() == n;
    }

    method DensityStep()
      requires Valid()
      modifies densityBuffer, tempBuffer, this`log
      ensures densityBuffer[..] == DensityStepOf(shaders, DensityUniforms(), DiffusionFactors(), deltaTime, Iterations(),
                                                 old(densityBuffer[..]), velocityBuffer[..])
      ensures tempBuffer[..] == Filled(Zero, cells)
      ensures log == old(log) + DensityStepTrace(DensityUniforms(), DiffusionFactors(), deltaTime, Iterations())
    {
      ghost var k, src, fd, dt, n := shaders, DensityUniforms(), DiffusionFactors(), deltaTime, Iterations();
      ghost var d0, v, log0 := densityBuffer[..], velocityBuffer[..], log;
      AddDensity(Density);
      ghost var t := [AddDensityK(src, Density)];
      Boundary(Density, 0.0);
      AppendAssoc(log0, t, [BoundaryK(0.0, Density)]);
      t := t + [BoundaryK(0.0, Density)];
      ghost var injected := densityBuffer[..];
      Diffuse(Density);
      AppendAssoc(log0, t, DiffuseTrace(fd, Density, n));
      t := t + DiffuseTrace(fd, Density, n);
      Boundary(Density, 0.0);
      AppendAssoc(log0, t, [BoundaryK(0.0, Density)]);
      t := t + [BoundaryK(0.0, Density)];
      ghost var diffused := densityBuffer[..];
      assert diffused == BoundaryOf(k, 0.0, DiffusionIterate(k, fd, injected, n));
      Advect(Density, Velocity, 0.996);
      AppendAssoc(log0, t, AdvectTrace(0.996, dt, Density, Velocity));
      t := t + AdvectTrace(0.996, dt, Density, Velocity);
      Boundary(Density, 0.0);
      AppendAssoc(log0, t, [BoundaryK(0.0, Density)]);
      t := t + [BoundaryK(0.0, Density)];
      assert t == DensityStepTrace(src, fd, dt, n);
      assert DensityUniforms() == src && DiffusionFactors() == fd && Iterations() == n;
    }

    /** The simulation part of the pass's render function: velocity first,
        then density, which is carried by the new velocity. */
    method Simulate()
      requires Valid()
      modifies velocityBuffer, divergenceBuffer, pressureBuffer, densityBuffer, tempBuffer, this`log
      ensures var r := VelocityStepOf(shaders, VelocityUniforms(), DiffusionFactors(), PressureFactors(),
                                      deltaTime, Iterations(), old(velocityBuffer[..]), old(pressureBuffer[..]));
        velocityBuffer[..] == r.velocity && divergenceBuffer[..] == r.divergence &&
        pressureBuffer[..] == r.pressure &&
        densityBuffer[..] == DensityStepOf(shaders, DensityUniforms(), DiffusionFactors(), deltaTime, Iterations(),
                                           old(densityBuffer[..]), r.velocity)
      ensures tempBuffer[..] == Filled(Zero, cells)
      ensures log == old(log)
        + VelocityStepTrace(VelocityUniforms(), DiffusionFactors(), PressureFactors(), deltaTime, Iterations())
        + DensityStepTrace(DensityUniforms(), DiffusionFactors(), deltaTime, Iterations())
    {
      VelocityStep();
      DensityStep();
    }

    /** The per-frame parameter refresh. `viewportPoint` is what the camera
        makes of the pointer position read from the volume; `color` is the
        density colour of this frame. */
    method UpdateParameters(s: Settings, pressedVelocity: real, pressedDensity: real,
                            viewportPoint: Vec2, color: Vec4)
      modifies this
      ensures viscosity == s.viscosity && deltaTime == s.deltaTime && solverIterations == s.solverIterations
      ensures velocityEffectRadius == s.velocityEffectRadius && velocityFalloff == s.velocityFalloff
      ensures velocityMultiplier == s.velocityMultiplier
      ensures densityEffectRadius == s.densityEffectRadius && densityFalloff == s.densityFalloff
      ensures velocityPressed == pressedVelocity && densityPressed == pressedDensity
      ensures previousMousePosition == old(currentMousePosition)
      ensures currentMousePosition == GridPosition(viewportPoint, simulationResolution)
      ensures densityColor == color
      ensures log == old(log)
    {
      CopyPrivateParameters(s);
      ReadVolumeParameters(pressedVelocity, pressedDensity, viewportPoint);
      densityColor := color;
    }

    /** The private parameters are copied from the settings, field by field. */
    method CopyPrivateParameters(s: Settings)
      modifies this`viscosity, this`deltaTime, this`solverIterations
      modifies this`velocityEffectRadius, this`velocityFalloff, this`velocityMultiplier
      modifies this`densityEffectRadius, this`densityFalloff
      ensures viscosity == s.viscosity && deltaTime == s.deltaTime && solverIterations == s.solverIterations
      ensures velocityEffectRadius == s.velocityEffectRadius && velocityFalloff == s.velocityFalloff
      ensures velocityMultiplier == s.velocityMultiplier
      ensures densityEffectRadius == s.densityEffectRadius && densityFalloff == s.densityFalloff
    {
      viscosity := s.viscosity;
      deltaTime := s.deltaTime;
      solverIterations := s.solverIterations;
      velocityEffectRadius := s.velocityEffectRadius;
      velocityFalloff := s.velocityFalloff;
      velocityMultiplier := s.velocityMultiplier;
      densityEffectRadius := s.densityEffectRadius;
      densityFalloff := s.densityFalloff;
    }

    /** The volume parameters: both pressed flags, and the pointer position,
        whose previous value is kept before it is clamped to the unit square
        and scaled to grid units. */
    method ReadVolumeParameters(pressedVelocity: real, pressedDensity: real, viewportPoint: Vec2)
      modifies this`velocityPressed, this`densityPressed, this`previousMousePosition, this`currentMousePosition
      ensures velocityPressed == pressedVelocity && densityPressed == pressedDensity
      ensures previousMousePosition == old(currentMousePosition)
      ensures currentMousePosition == GridPosition(viewportPoint, simulationResolution)
    {
      velocityPressed := pressedVelocity;
      densityPressed := pressedDensity;
      previousMousePosition := currentMousePosition;
      var position := Vec2(Clamp01(viewportPoint.x), Clamp01(viewportPoint.y));
      position := Vec2(position.x * simulationResolution as real, position.y * simulationResolution as real);
      GridPositionSteps(viewportPoint, simulationResolution);
      currentMousePosition := position;
    }

    /** One frame: refresh the parameters, then run the simulation. */
    method RecordRenderGraph(s: Settings, pressedVelocity: real, pressedDensity: real,
                             viewportPoint: Vec2, color: Vec4)
      requires Valid()
      modifies this, velocityBuffer, divergenceBuffer, pressureBuffer, densityBuffer, tempBuffer
      ensures viscosity == s.viscosity && deltaTime == s.deltaTime && solverIterations == s.solverIterations
      ensures velocityEffectRadius == s.velocityEffectRadius && velocityFalloff == s.velocityFalloff
      ensures velocityMultiplier == s.velocityMultiplier
      ensures densityEffectRadius == s.densityEffectRadius && densityFalloff == s.densityFalloff
      ensures velocityPressed == pressedVelocity && densityPressed == pressedDensity
      ensures previousMousePosition == old(currentMousePosition)
      ensures currentMousePosition == GridPosition(viewportPoint, simulationResolution)
      ensures densityColor == color
      ensures var r := VelocityStepOf(shaders, VelocityUniforms(), DiffusionFactors(), PressureFactors(),
                                      s.deltaTime, SweepCount(s.solverIterations), old(velocityBuffer[..]), old(pressureBuffer[..]));
        velocityBuffer[..] == r.velocity && divergenceBuffer[..] == r.divergence &&
        pressureBuffer[..] == r.pressure &&
        densityBuffer[..] == DensityStepOf(shaders, DensityUniforms(), DiffusionFactors(), s.deltaTime,
                                           SweepCount(s.solverIterations), old(densityBuffer[..]), r.velocity)
      ensures tempBuffer[..] == Filled(Zero, cells)
      ensures log == old(log)
        + VelocityStepTrace(VelocityUniforms(), DiffusionFactors(), PressureFactors(), deltaTime, Iterations())
        + DensityStepTrace(DensityUniforms(), DiffusionFactors(), deltaTime, Iterations())
    {
      UpdateParameters(s, pressedVelocity, pressedDensity, viewportPoint, color);
      Simulate();
    }
  }
}
