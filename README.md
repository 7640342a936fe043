# Simple 2D fluid simulation: the solver's buffer protocol

This project models the grid-based stable-fluids solver of the Simple2DFluidSimulation
Unity project.
- **What is modelled.** The part of the render pass (`FluidSimulationRenderPass`) that runs in C#:
  - which of the five GPU buffers each compute kernel reads and writes;
  - in what order the kernels are dispatched;
  - when a result is copied back out of the scratch buffer and the scratch buffer cleared.

  The five buffers are scratch (`tempBuffer`), velocity, divergence, pressure and density.
- **Pointer input.** It also models the per-frame pointer-input component (`FluidSimulation`) that sets the two
  "pressed" flags the sources read.
- **Kernels.** The kernels themselves are compute shaders and are not part of this model. Each one is a
  parameter, an arbitrary function from snapshots of its bound input buffers to the value its worker
  writes into one output cell, so everything proved holds for every choice of kernels.

Modules, one file each:

- `kernels.dfy` — `Kernels`. These are cells (`Vec4`), fields (`seq<Vec4>`), the kernel parameters (`Shaders`) and
  one launch of each kernel as a whole-field function. It also holds the reference definitions of
  what the operations compute:
  - `DiffusionIterate`, `PressureIterate`, `ProjectOf`;
  - `VelocityStepOf`, `DensityStepOf`.
- `setup.dfy` — `Setup`: the integer arithmetic of `Initialize`, as written and as intended.
- `dispatches.dfy` — `Dispatches`. Each dispatch is a value that records the buffers it was bound to. The
  module gives the exact dispatch sequence (trace) each operation issues, and lemmas about
  those traces: ping-pong alternation, when a copy-back happens, what each operation writes.
- `render_pass.dfy` — `FluidSolver`: the class `FluidSimulationRenderPass`.
  - **State.** Its five buffers are `array<Vec4>` fields, and every tunable it reassigns is a `var` field.
  - **Operations.** Every operation is a method that overwrites buffers in place and appends its
    dispatches to a ghost log.
  - **Contracts.** Each method states both the new buffer contents, in terms of the reference
    functions, and the exact log it appends.
  - **Extracted groupings.** `RelaxPressure`, `PressureSweep`, `CopyPrivateParameters`,
    `ReadVolumeParameters` and the `Dispatch*` methods group statements of the source; the source
    has no such methods.
- `replay.dfy` — `Replay`: an independent execution semantics for dispatch logs. It proves that
  replaying each operation's trace on the buffer contents yields exactly the contents the render
  pass promises. Two descriptions are thereby tied together: the bindings recorded in the log, and
  the values left in the buffers.
- `fluid_simulation.dfy` — `PointerInput`: the class `FluidSimulation` and its `Update`, plus the
  per-frame flag transition `NextFlag` and its properties over runs of frames.

Where the source hands a value to or from the engine (the viewport point of the pointer, the two
flags read from the volume profile, this frame's density colour, the mouse button events), the
model takes that value as a method parameter.

## Model

| member | source | states |
|---|---|---|
| Setup.TruncatedGroups | Simple2DFluidSimulation/Assets/_Demo/Scripts/FluidSimulationRenderPass.cs:78-79 | The integer quotient handed to CeilToInt: `r * threadNum <= extent < r * threadNum + threadNum`, which may leave cells uncovered. |
| Setup.CeilGroups | Simple2DFluidSimulation/Assets/_Demo/Scripts/FluidSimulationRenderPass.cs:78-79 | The rounded-up group count: the groups cover the extent, `extent <= r * threadNum`, with fewer than `threadNum` threads to spare. |
| Setup.InitializeAsWritten | Simple2DFluidSimulation/Assets/_Demo/Scripts/FluidSimulationRenderPass.cs:71-79 | Initialize as the code computes it. Every buffer has `simulationResolution²` cells, and `gridScale` is the floor of render/simulation resolution (both bounds). Each thread-group count is the truncated quotient of its extent by `threadNum` (both bounds), so the groups never exceed the extent and fall short of it by less than one group. |
| Setup.Initialize | Simple2DFluidSimulation/Assets/_Demo/Scripts/FluidSimulationRenderPass.cs:71-79 | The same cell count and grid scale. The simulation and render group counts cover their extents with fewer than one group's worth of spare threads. |
| Setup.AsWrittenCoversIffDivisible | Simple2DFluidSimulation/Assets/_Demo/Scripts/FluidSimulationRenderPass.cs:78-79 | As written, the groups cover an extent exactly when `threadNum` divides it, and `extent % threadNum` rows are missed otherwise. |
| Setup.AsWrittenMissesCells | Simple2DFluidSimulation/Assets/_Demo/Scripts/FluidSimulationRenderPass.cs:78 | At resolution 500 with 8 threads the code dispatches 62 groups (496 < 500 cells); the rounded-up count is 63. |
| Setup.DefaultSetup | Simple2DFluidSimulation/Assets/_Demo/Scripts/FluidSimulationRenderPass.cs:10-11 | For the hard-coded 1024/512/8 both readings agree: 262144 cells, grid scale 2, 64 and 128 thread groups. |
| FluidSolver.SweepCount | Simple2DFluidSimulation/Assets/_Demo/Scripts/FluidSimulationRenderPass.cs:178 | How often `for (i = 0; i < n; i++)` runs: 0 when n ≤ 0, otherwise n. |
| FluidSolver.Clamp01 | Simple2DFluidSimulation/Assets/_Demo/Scripts/FluidSimulationRenderPass.cs:325 | The result lies in [0, 1], is the input inside it, 0 below it and 1 above it. |
| FluidSolver.ToGrid | Simple2DFluidSimulation/Assets/_Demo/Scripts/FluidSimulationRenderPass.cs:325-326 | One clamped and scaled coordinate lies in [0, resolution] and is `v * resolution` when v is in [0, 1]. |
| FluidSolver.GridPosition | Simple2DFluidSimulation/Assets/_Demo/Scripts/FluidSimulationRenderPass.cs:325-326 | Both axes of the new pointer position lie in [0, simulationResolution]; an in-range viewport point is scaled, not clamped. |
| FluidSolver.FluidSimulationRenderPass.constructor | Simple2DFluidSimulation/Assets/_Demo/Scripts/FluidSimulationRenderPass.cs:52-84 | The field defaults (lines 10-20, 35, 43-47). Five fresh, distinct buffers of 262144 cells. gridScale 2 and thread groups 64/128, the same under both readings of Initialize. An empty dispatch log. |
| FluidSolver.FluidSimulationRenderPass.DispatchJacobi | Simple2DFluidSimulation/Assets/_Demo/Scripts/FluidSimulationRenderPass.cs:194 | The result buffer holds the Jacobi kernel applied to the old current and right-hand-side buffers. One JacobiK dispatch with those bindings is logged. |
| FluidSolver.FluidSimulationRenderPass.DispatchAdvect | Simple2DFluidSimulation/Assets/_Demo/Scripts/FluidSimulationRenderPass.cs:205-210 | The advected buffer holds the advection of the old source by the old velocity, over this frame's `deltaTime` (the DeltaTime uniform of line 107). The dispatch is logged. |
| FluidSolver.FluidSimulationRenderPass.DispatchDivergence | Simple2DFluidSimulation/Assets/_Demo/Scripts/FluidSimulationRenderPass.cs:219-221 | The divergence buffer holds the divergence kernel's output on the old raw velocity. The dispatch is logged. |
| FluidSolver.FluidSimulationRenderPass.DispatchFreeDivergence | Simple2DFluidSimulation/Assets/_Demo/Scripts/FluidSimulationRenderPass.cs:257-260 | The result buffer holds the free-divergence kernel's output on the old velocity and the old pressure. The dispatch is logged. |
| FluidSolver.FluidSimulationRenderPass.AddVelocity | Simple2DFluidSimulation/Assets/_Demo/Scripts/FluidSimulationRenderPass.cs:147-157 | The target holds the AddVelocity kernel's output, given the pointer and velocity uniforms of this frame. The dispatch is logged. |
| FluidSolver.FluidSimulationRenderPass.AddDensity | Simple2DFluidSimulation/Assets/_Demo/Scripts/FluidSimulationRenderPass.cs:159-168 | The target holds the AddDensity kernel's output, given the colour, position and density uniforms. The dispatch is logged. |
| FluidSolver.FluidSimulationRenderPass.Boundary | Simple2DFluidSimulation/Assets/_Demo/Scripts/FluidSimulationRenderPass.cs:267-272 | The bound buffer is rewritten in place from its own old contents with the given scale. One BoundaryK is logged. |
| FluidSolver.FluidSimulationRenderPass.CopyStructuredBuffer | Simple2DFluidSimulation/Assets/_Demo/Scripts/FluidSimulationRenderPass.cs:291-296 | The destination equals the old source; only the destination changes. |
| FluidSolver.FluidSimulationRenderPass.ClearStructuredBuffer | Simple2DFluidSimulation/Assets/_Demo/Scripts/FluidSimulationRenderPass.cs:298-303 | Every cell of the cleared buffer holds the clear value. |
| FluidSolver.FluidSimulationRenderPass.Diffuse | Simple2DFluidSimulation/Assets/_Demo/Scripts/FluidSimulationRenderPass.cs:170-201 | After the `resultInTempBuffer` ping-pong, `b` holds the n-th diffusion iterate of its old contents and the scratch buffer is all zero. The log grows by exactly the sweeps, the copy-back and the clear. |
| FluidSolver.FluidSimulationRenderPass.Advect | Simple2DFluidSimulation/Assets/_Demo/Scripts/FluidSimulationRenderPass.cs:203-215 | The source holds the advected field and the scratch buffer is zero. The velocity buffer is unchanged unless it is the source (self-advection). Advect, copy and clear are logged in that order. |
| FluidSolver.FluidSimulationRenderPass.RelaxPressure | Simple2DFluidSimulation/Assets/_Demo/Scripts/FluidSimulationRenderPass.cs:228-253 | `p` holds the n-th pressure iterate, warm-started from its old contents, against the unchanged divergence buffer, and scratch is zero. The log is the sweeps, the copy-back and the clear. |
| FluidSolver.FluidSimulationRenderPass.PressureSweep | Simple2DFluidSimulation/Assets/_Demo/Scripts/FluidSimulationRenderPass.cs:233-247 | The buffer about to be read is border-mirrored with scale +1; the other holds one relaxation of it against `rhs`. |
| FluidSolver.FluidSimulationRenderPass.Project | Simple2DFluidSimulation/Assets/_Demo/Scripts/FluidSimulationRenderPass.cs:217-265 | Velocity, divergence and pressure are as ProjectOf gives them from the old velocity and old pressure: divergence kernel, warm-started solve, last mirror and free-divergence kernel. Scratch is zero and the log is the exact Project trace. |
| FluidSolver.FluidSimulationRenderPass.VelocityStep | Simple2DFluidSimulation/Assets/_Demo/Scripts/FluidSimulationRenderPass.cs:119-129 | The log grows by AddVelocity, Boundary(-1), Diffuse, Boundary(-1), Project, Advect(self, 0.999), Boundary(-1), Project, and the buffers hold VelocityStepOf. |
| FluidSolver.FluidSimulationRenderPass.DensityStep | Simple2DFluidSimulation/Assets/_Demo/Scripts/FluidSimulationRenderPass.cs:131-139 | The log grows by AddDensity, Boundary(0), Diffuse, Boundary(0), Advect(by velocity, 0.996), Boundary(0). Density holds DensityStepOf, transported by the current velocity. |
| FluidSolver.FluidSimulationRenderPass.Simulate | Simple2DFluidSimulation/Assets/_Demo/Scripts/FluidSimulationRenderPass.cs:110-111 | The velocity step runs before the density step, so density is advected by the new velocity. |
| FluidSolver.FluidSimulationRenderPass.UpdateParameters | Simple2DFluidSimulation/Assets/_Demo/Scripts/FluidSimulationRenderPass.cs:307-326 | The eight tunables equal the settings. The flags equal the volume's values. `previousMousePosition` is the old current position, and the new current one is the clamped, scaled viewport point. No dispatch is logged. |
| FluidSolver.FluidSimulationRenderPass.CopyPrivateParameters | Simple2DFluidSimulation/Assets/_Demo/Scripts/FluidSimulationRenderPass.cs:309-317 | Each of the eight private parameters equals its settings value. |
| FluidSolver.FluidSimulationRenderPass.ReadVolumeParameters | Simple2DFluidSimulation/Assets/_Demo/Scripts/FluidSimulationRenderPass.cs:319-326 | The previous position takes the old current position before the new one is written. |
| FluidSolver.FluidSimulationRenderPass.RecordRenderGraph | Simple2DFluidSimulation/Assets/_Demo/Scripts/FluidSimulationRenderPass.cs:86-117 | Parameters are refreshed first (line 88). The tunables, flags, positions and density colour equal the settings, volume values and colour passed in, exactly as after UpdateParameters. Then both steps run with those refreshed uniforms, `s.deltaTime` and `SweepCount(s.solverIterations)` sweeps. |
| Dispatches.PingPongLast | Simple2DFluidSimulation/Assets/_Demo/Scripts/FluidSimulationRenderPass.cs:180-192 | The buffer sweep n-1 writes is the one sweep n reads. |
| Dispatches.DiffuseSweepsAt | Simple2DFluidSimulation/Assets/_Demo/Scripts/FluidSimulationRenderPass.cs:178-195 | Sweep j of the Diffuse log is the Jacobi dispatch with the bindings of iteration j. |
| Dispatches.DiffusePingPong | Simple2DFluidSimulation/Assets/_Demo/Scripts/FluidSimulationRenderPass.cs:180-194 | Every Diffuse sweep binds its right-hand side to its own current buffer (lines 183-184, 189-190). Even sweeps read `b` and write scratch, odd sweeps the reverse, and each sweep reads what the previous one wrote. |
| Dispatches.DiffuseCopiesBackIffOdd | Simple2DFluidSimulation/Assets/_Demo/Scripts/FluidSimulationRenderPass.cs:197-198 | A copy from scratch back into `b` is issued if and only if the number of sweeps is odd. |
| Dispatches.DiffuseEndsInPlace | Simple2DFluidSimulation/Assets/_Demo/Scripts/FluidSimulationRenderPass.cs:191-200 | The last sweep writes `b` itself exactly when the count is even, and the scratch clear is the last dispatch. |
| Dispatches.DiffuseWithoutSweeps | Simple2DFluidSimulation/Assets/_Demo/Scripts/FluidSimulationRenderPass.cs:177-200 | With 0 sweeps Diffuse issues only the scratch clear and never writes `b`. |
| Dispatches.DiffuseTraceWrites | Simple2DFluidSimulation/Assets/_Demo/Scripts/FluidSimulationRenderPass.cs:170-201 | Diffuse writes only `b` and scratch. |
| Dispatches.ProjectSweepsAt | Simple2DFluidSimulation/Assets/_Demo/Scripts/FluidSimulationRenderPass.cs:231-248 | Pressure iteration j issues Boundary(+1) on the buffer it reads, then the Jacobi dispatch against `d` with that iteration's bindings. |
| Dispatches.ProjectBoundaryBeforeEverySweep | Simple2DFluidSimulation/Assets/_Demo/Scripts/FluidSimulationRenderPass.cs:228-248 | Each pressure sweep relaxes against the divergence buffer, directly after a scale +1 mirror of the buffer it reads. The first sweep reads the old pressure and each later sweep reads its predecessor's result. |
| Dispatches.ProjectSweepsShape | Simple2DFluidSimulation/Assets/_Demo/Scripts/FluidSimulationRenderPass.cs:231-248 | The pressure loop issues only scale +1 mirrors and Jacobi sweeps against `d`, each on `p` or scratch. |
| Dispatches.ProjectNeverResetsPressure | Simple2DFluidSimulation/Assets/_Demo/Scripts/FluidSimulationRenderPass.cs:230-265 | Whatever writes `p` inside Project is a mirror, a sweep against `d` or the copy-back of the last iterate. Only scratch is ever cleared. |
| Dispatches.ProjectTraceWrites | Simple2DFluidSimulation/Assets/_Demo/Scripts/FluidSimulationRenderPass.cs:217-265 | Project writes only velocity, divergence, pressure and scratch. |
| Dispatches.VelocityStepLeavesDensity | Simple2DFluidSimulation/Assets/_Demo/Scripts/FluidSimulationRenderPass.cs:119-129 | No dispatch of the velocity step writes the density buffer. |
| Dispatches.DensityStepWrites | Simple2DFluidSimulation/Assets/_Demo/Scripts/FluidSimulationRenderPass.cs:131-139 | The density step writes only density and scratch; it reads the velocity but does not change it. |
| Replay.RunFrame | Simple2DFluidSimulation/Assets/_Demo/Scripts/FluidSimulationRenderPass.cs:364-368 | A buffer that no dispatch of a log is bound to as output keeps its contents when the log is replayed. |
| Replay.RunAppend | Simple2DFluidSimulation/Assets/_Demo/Scripts/FluidSimulationRenderPass.cs:364-368 | Replaying a concatenation is replaying one log after the other. |
| Replay.RunDiffuseSweeps | Simple2DFluidSimulation/Assets/_Demo/Scripts/FluidSimulationRenderPass.cs:177-195 | After n replayed sweeps the n-th diffusion iterate is in `b` when n is even and in scratch when n is odd. |
| Replay.CopyBackClear | Simple2DFluidSimulation/Assets/_Demo/Scripts/FluidSimulationRenderPass.cs:197-200 | The conditional copy-back and the clear move the last iterate into `b`, clear scratch, and touch nothing else. |
| Replay.RunDiffuse | Simple2DFluidSimulation/Assets/_Demo/Scripts/FluidSimulationRenderPass.cs:170-201 | Replaying Diffuse's log leaves the n-th iterate in `b`, zero in scratch and every other buffer unchanged, agreeing with the Diffuse method. |
| Replay.RunAdvect | Simple2DFluidSimulation/Assets/_Demo/Scripts/FluidSimulationRenderPass.cs:203-215 | Replaying Advect's log leaves the advected field in the source and zero in scratch; nothing else changes. |
| Replay.RunOneSweep | Simple2DFluidSimulation/Assets/_Demo/Scripts/FluidSimulationRenderPass.cs:233-247 | One replayed pressure iteration writes the relaxation of the mirrored current buffer and leaves `d` unchanged. |
| Replay.SweepStateIterate | Simple2DFluidSimulation/Assets/_Demo/Scripts/FluidSimulationRenderPass.cs:230-248 | After n replayed pressure iterations the n-th pressure iterate is where the next sweep reads it, and `d` is unchanged. |
| Replay.RunPressureSolve | Simple2DFluidSimulation/Assets/_Demo/Scripts/FluidSimulationRenderPass.cs:228-253 | Replaying the solve leaves the n-th pressure iterate in `p` and zero in scratch, with everything else unchanged. |
| Replay.ProjectTail | Simple2DFluidSimulation/Assets/_Demo/Scripts/FluidSimulationRenderPass.cs:255-264 | The last mirror, the free-divergence kernel into scratch, its copy into the velocity and the clear. |
| Replay.RunProject | Simple2DFluidSimulation/Assets/_Demo/Scripts/FluidSimulationRenderPass.cs:217-265 | Replaying Project's log gives ProjectOf in velocity, divergence and pressure and zero in scratch, and leaves density unchanged. |
| Replay.VelocityStepSegments | Simple2DFluidSimulation/Assets/_Demo/Scripts/FluidSimulationRenderPass.cs:119-129 | Replaying the velocity step runs its eight operations one after another. |
| Replay.RunVelocityStep | Simple2DFluidSimulation/Assets/_Demo/Scripts/FluidSimulationRenderPass.cs:119-129 | Replaying the velocity step's log gives VelocityStepOf, zero scratch and an untouched density buffer. |
| Replay.DensityStepSegments | Simple2DFluidSimulation/Assets/_Demo/Scripts/FluidSimulationRenderPass.cs:131-139 | Replaying the density step runs its six operations one after another. |
| Replay.RunDensityStep | Simple2DFluidSimulation/Assets/_Demo/Scripts/FluidSimulationRenderPass.cs:131-139 | Replaying the density step's log gives DensityStepOf in density and zero scratch, and leaves the velocity, divergence and pressure unchanged. |
| PointerInput.NextFlag | Simple2DFluidSimulation/Assets/_Demo/Scripts/FluidSimulation.cs:14-21 | One frame's flag is either the old value or one of the two written values 0 and 1. |
| PointerInput.NextFlagCases | Simple2DFluidSimulation/Assets/_Demo/Scripts/FluidSimulation.cs:14-21 | The flag ends at 1 if and only if the button went down and not up, or nothing happened and it was 1. It ends at 0 if and only if the button went up, or stayed untouched at 0. Without events it is unchanged. |
| PointerInput.ReleaseWinsInOneFrame | Simple2DFluidSimulation/Assets/_Demo/Scripts/FluidSimulation.cs:14-21 | Down and up in the same frame leave the flag at 0, because the up check runs second. |
| PointerInput.FlagAfterAppend | Simple2DFluidSimulation/Assets/_Demo/Scripts/FluidSimulation.cs:8-12 | The flag persists across frames: running frames `a + b` is running `a`, then `b`. |
| PointerInput.QuietFramesKeepFlag | Simple2DFluidSimulation/Assets/_Demo/Scripts/FluidSimulation.cs:8-21 | Frames without events keep the flag's previous value. |
| PointerInput.LastEventDecides | Simple2DFluidSimulation/Assets/_Demo/Scripts/FluidSimulation.cs:12-21 | After any history, the flag is decided by the last frame that had an event: 0 if it released the button, otherwise 1. |
| PointerInput.FlagStaysBinary | Simple2DFluidSimulation/Assets/_Demo/Scripts/FluidSimulation.cs:16-29 | Starting from 0 or 1 (the default 0 included), the flag only ever holds 0 or 1. |
| PointerInput.FluidSimulation.constructor | Simple2DFluidSimulation/Assets/_Demo/Scripts/FluidSimulation.cs:8-10 | Both flags start at the C# default 0 and the position at the origin. |
| PointerInput.FluidSimulation.Update | Simple2DFluidSimulation/Assets/_Demo/Scripts/FluidSimulation.cs:12-32 | The left button drives `velocityPressed` and the right button `densityPressed`, independently, each by NextFlag. The position is taken unconditionally, and 0/1-valued flags stay 0/1-valued. |

## Left out

- **Kernel formulas.** The Jacobi stencil, advection, divergence, gradient subtraction, border rules and source
  falloff are compute shaders that are not part of this model. They are arbitrary functions, so
  nothing depends on them.
- **Jacobi factors and dissipation.** CenterFactor and DiagonalFactor are float arithmetic. Diffuse and Project
  compute them in C# (lines 172-173 and 223-224 of FluidSimulationRenderPass.cs) and upload them as the
  CenterFactor/DiagonalFactor uniforms (lines 174-175 and 225-226). The model does not compute them. The
  `Factors` value handed to the Jacobi kernel records only what they are derived from:
  `Diffusion(viscosity, deltaTime)` or `PressureSolve(gridScale)`.
  The dissipation factors 0.999 and 0.996 are passed to the kernel as reals.
- **Global shader uniforms.** RenderResolution, SimulationResolution, DeltaTime and GridScale (lines 105-108) are
  set each frame for the kernels.
  - The resolutions and GridScale are fixed by Initialize, so the fixed kernel parameters describe them for
    the pass's lifetime.
  - DeltaTime is re-read from the settings every frame (line 311). It reaches the model's kernels in two ways:
    as an argument of advection, and through the Jacobi factors.
  - The shader sources are not part of this model. A kernel that also read DeltaTime elsewhere (AddVelocity,
    say) is modelled as if it did not, so its behaviour across a change of settings is not captured.
- **Floats as reals.** Floats are modelled as mathematical reals, with no rounding. `gridScale` is a float in the code;
  it holds the integer quotient of the resolutions and is modelled as that integer.
- **Thread-group widths and GPU parallelism.** The dispatch widths are `threadGroupNum` squared,
  `threadGroupNum * 4` for Boundary and `threadGroupNum²` by 1 for copy and clear. Every dispatch
  is modelled as one worker per cell of the output. Each worker reads a snapshot of the bound
  inputs taken before the kernel writes. So the model does not capture races between workers of a
  kernel that reads and writes the same buffer (Boundary). It also does not capture cells left
  unprocessed when the group count falls short, which is the situation the finding below describes.
- **Render-graph plumbing.** This covers the pass builder, texture import, `PassContext` and `FindKernel`
  (lines 90-116 and 348-389). The render function's body is `Simulate`.
- **Visualization.** `Visualization`, `DrawVelocity` and `DrawDensity`, the render texture and its RTHandle
  (lines 81-83, 112 and 141-145, 274-288) produce only the displayed image.
- **Colour cycling.** The density colour's cycling (lines 328-335) depends on `Random`, HSV conversion
  and frame time. The colour of the frame is a parameter of `UpdateParameters`.
- **Engine calls.** `Camera.main.ScreenToViewportPoint` (line 324) becomes the `viewportPoint` parameter.
  The volume `GetValue` reads of the two flags (lines 320-321) become the flag parameters. The pointer-position read (line 323) becomes part of `viewportPoint`. The volume `SetValue`
  writes in `FluidSimulation.Update` (FluidSimulation.cs lines 34-37) are not modelled.
  `Input.GetMouseButtonDown/Up` become `ButtonEvents`. `Input.mousePosition`, a 3-vector with zero depth, is
  taken as its 2-D part.
- Setup.InitializeAsWritten: the cell count is the unbounded square of `simulationResolution`. The code computes it
  as a 32-bit C# `int` product (lines 71-75), which overflows above a resolution of 46340. That wrap-around and the
  resulting failed buffer allocation are not modelled. The hard-coded resolution 512 is far below the bound
  (262144 cells).
- **Buffer allocation.** Buffers are allocated as `new` arrays in the constructor; `Dispose`
  (lines 338-345) has no counterpart.
  The constructor and `Initialize` (lines 52-84) are one Dafny constructor. The shaders it copies
  from the settings are a parameter.
- **Configuration files.** `FluidSimulationSettings.cs`, `FluidSimulationVolume.cs` and
  `FluidSimulationRendererFeature.cs` hold data and engine wiring only; they are not part of this
  model. The `Settings` datatype stands for the settings object.

## Findings

| source | as written | input that shows it | evidently intended | confidence | as-written member | corrected member |
|---|---|---|---|---|---|---|
| Simple2DFluidSimulation/Assets/_Demo/Scripts/FluidSimulationRenderPass.cs:78-79 | The resolution and the thread count are both ints, so they are divided with truncation before `Mathf.CeilToInt` sees the quotient, and CeilToInt rounds nothing. | simulationResolution = 500 with threadNum = 8: 62 groups cover 496 cells per axis, so 4 rows and columns are never dispatched. | Round the quotient up, giving 63 groups that cover all 500. | low: latent, because both resolutions are hard-coded to multiples of 8; not executed | Setup.InitializeAsWritten | Setup.Initialize |
