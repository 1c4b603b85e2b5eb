/** The parameter records of the container's compute and apply entry points and their defaults. */
module BlockTriDiParameters {

  /** Settings of one inverse-Jacobi application. */
  datatype ApplyParameters = ApplyParameters(
    zeroStartingSolution: bool,
    dampingFactor: real,
    maxNumSweeps: int,
    tolerance: real,
    checkToleranceEvery: int)

  /** Settings of the numeric phase: the value added to the diagonal of every diagonal block. */
  datatype ComputeParameters = ComputeParameters(addRadiallyToDiagonal: real)

  /** The default-constructed ApplyParameters: a warm start, an undamped single sweep, and a
      zero tolerance checked after every sweep. */
  function DefaultApplyParameters(): (p: ApplyParameters)
    ensures !p.zeroStartingSolution && p.dampingFactor == 1.0 && p.maxNumSweeps == 1
    ensures p.tolerance == 0.0 && p.checkToleranceEvery == 1
  {
    ApplyParameters(false, 1.0, 1, 0.0, 1)
  }

  /** The default-constructed ComputeParameters add nothing to the diagonal. */
  function DefaultComputeParameters(): (p: ComputeParameters)
    ensures p.addRadiallyToDiagonal == 0.0
  {
    ComputeParameters(0.0)
  }

  /** createDefaultApplyParameters: the defaults, with the container's damping factor. */
  function CreateDefaultApplyParameters(containerDamping: real): (p: ApplyParameters)
    ensures p == DefaultApplyParameters().(dampingFactor := containerDamping)
    ensures p.dampingFactor == containerDamping
  {
    var p := DefaultApplyParameters();
    p.(dampingFactor := containerDamping)
  }

  /** createDefaultComputeParameters returns the default-constructed record. */
  function CreateDefaultComputeParameters(): (p: ComputeParameters)
    ensures p.addRadiallyToDiagonal == 0.0
  {
    DefaultComputeParameters()
  }

  /** Replacing the damping factor is the only difference between createDefaultApplyParameters
      and the default record: every other field agrees, and a container damping of one gives
      back the defaults exactly. */
  lemma CreateDefaultApplyParametersOnlyDamping(containerDamping: real)
    ensures var p := CreateDefaultApplyParameters(containerDamping);
      && p.zeroStartingSolution == DefaultApplyParameters().zeroStartingSolution
      && p.maxNumSweeps == DefaultApplyParameters().maxNumSweeps
      && p.tolerance == DefaultApplyParameters().tolerance
      && p.checkToleranceEvery == DefaultApplyParameters().checkToleranceEvery
      && (p == DefaultApplyParameters() <==> containerDamping == 1.0)
  {
  }
}
