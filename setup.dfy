/** The integer set-up arithmetic of the render pass's Initialize: buffer
    sizes, the grid scale and the thread-group counts. */
module Setup {

  /** What Initialize derives from the resolutions and the thread count. */
  datatype SetupValues = SetupValues(
    cellCount: nat, gridScale: nat, threadGroupNum: nat, renderThreadGroupNum: nat)

  /** `Mathf.CeilToInt(extent / threadNum)` with `extent` and `threadNum` both
      ints: C# divides first, truncating (for non-negative operands that is
      Dafny's `/`), so CeilToInt receives an integer and rounds nothing. */
  function TruncatedGroups(extent: nat, threadNum: nat): (r: nat)
    requires threadNum > 0
    ensures r * threadNum <= extent < r * threadNum + threadNum
  {
    extent / threadNum
  }

  /** The number of groups of `threadNum` threads needed to cover `extent`
      cells: the ceiling of the real quotient. */
  function CeilGroups(extent: nat, threadNum: nat): (r: nat)
    requires threadNum > 0
    ensures extent <= r * threadNum < extent + threadNum
  {
    (extent + threadNum - 1) / threadNum
  }

  /** Initialize's arithmetic as the code writes it. */
  function InitializeAsWritten(renderResolution: nat, simulationResolution: nat, threadNum: nat): (r: SetupValues)
    requires simulationResolution > 0 && threadNum > 0
    ensures r.cellCount == simulationResolution * simulationResolution
    ensures r.gridScale * simulationResolution <= renderResolution
    ensures renderResolution < r.gridScale * simulationResolution + simulationResolution
    ensures r.threadGroupNum * threadNum <= simulationResolution < r.threadGroupNum * threadNum + threadNum
    ensures r.renderThreadGroupNum * threadNum <= renderResolution < r.renderThreadGroupNum * threadNum + threadNum
  {
    SetupValues(
      simulationResolution * simulationResolution,
      renderResolution / simulationResolution,
      TruncatedGroups(simulationResolution, threadNum),
      TruncatedGroups(renderResolution, threadNum))
  }

  /** Initialize's arithmetic with the thread-group counts rounded up, as the
      call to CeilToInt intends. */
  function Initialize(renderResolution: nat, simulationResolution: nat, threadNum: nat): (r: SetupValues)
    requires simulationResolution > 0 && threadNum > 0
    ensures r.cellCount == simulationResolution * simulationResolution
    ensures r.gridScale * simulationResolution <= renderResolution
    ensures renderResolution < r.gridScale * simulationResolution + simulationResolution
    ensures simulationResolution <= r.threadGroupNum * threadNum < simulationResolution + threadNum
    ensures renderResolution <= r.renderThreadGroupNum * threadNum < renderResolution + threadNum
  {
    SetupValues(
      simulationResolution * simulationResolution,
      renderResolution / simulationResolution,
      CeilGroups(simulationResolution, threadNum),
      CeilGroups(renderResolution, threadNum))
  }

  /** As written, the groups cover an extent exactly when the thread count
      divides it; otherwise the last `extent % threadNum` rows and columns are
      never dispatched. */
  lemma AsWrittenCoversIffDivisible(extent: nat, threadNum: nat)
    requires threadNum > 0
    ensures TruncatedGroups(extent, threadNum) * threadNum == extent <==> extent % threadNum == 0
    ensures extent - TruncatedGroups(extent, threadNum) * threadNum == extent % threadNum
  {
    assert extent == (extent / threadNum) * threadNum + extent % threadNum;
  }

  /** A resolution of 500 with 8 threads per group: the code dispatches 62
      groups, 496 cells per axis, and leaves 4 rows and columns unprocessed. */
  lemma AsWrittenMissesCells()
    ensures InitializeAsWritten(1024, 500, 8).threadGroupNum == 62
    ensures InitializeAsWritten(1024, 500, 8).threadGroupNum * 8 < 500
    ensures Initialize(1024, 500, 8).threadGroupNum == 63
  {
  }

  /** For the hard-coded resolutions (1024 rendered, 512 simulated, 8 threads)
      both readings agree: 262144 cells per buffer, grid scale 2, 64 and 128
      thread groups. */
  lemma DefaultSetup()
    ensures InitializeAsWritten(1024, 512, 8) == Initialize(1024, 512, 8)
    ensures Initialize(1024, 512, 8) == SetupValues(262144, 2, 64, 128)
  {
  }
}
