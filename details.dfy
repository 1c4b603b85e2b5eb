/** The collaborators the block-tridiagonal container talks to: the handles it holds through
    reference-counted pointers, and the routines of the BlockTriDiContainerDetails namespace
    (importer factories, the symbolic and numeric phases, the inverse-Jacobi sweep driver).
    Their bodies do block LU factorisation, halo exchange and collective reductions; here
    they are uninterpreted: a `Details` value supplies them as total functions, so every
    fact proved about the container holds whatever those routines compute. */
module BlockTriDiContainerDetails {

  datatype Option<+T> = None | Some(value: T)

  /** Identity of an object the container holds through a reference-counted pointer. */
  type Handle = nat

  /** The row matrix given to a constructor; `isBlockCrs` tells whether the dynamic cast
      to a block CRS matrix succeeds, and `id` is the object that cast yields. */
  datatype RowMatrix = RowMatrix(id: Handle, isBlockCrs: bool)

  /** One array of local row indices per requested partition. */
  type Partitions = seq<seq<int>>

  /** What the norm manager exposes: the number of right-hand sides and the two norm
      arrays, each of which may be a null pointer. */
  datatype NormState = NormState(numVectors: nat, norms0: Option<seq<real>>, normsFinal: Option<seq<real>>)
  {
    /** A non-null norm array holds at least one entry per right-hand side. */
    predicate WellFormed() {
      && (norms0.Some? ==> numVectors <= |norms0.value|)
      && (normsFinal.Some? ==> numVectors <= |normsFinal.value|)
    }
  }

  type NormManager = n: NormState | n.WellFormed() witness NormState(0, None, None)

  /** A default-constructed norm manager: no right-hand sides and no norm arrays. */
  const EmptyNormManager: NormManager := NormState(0, None, None)

  /** Arguments of performSymbolicPhase. */
  datatype SymbolicArgs = SymbolicArgs(
    matrix: Handle,
    partInterface: Option<Handle>,
    blockTridiags: Option<Handle>,
    aMinusD: Option<Handle>,
    overlapCommAndComp: bool)

  /** What performSymbolicPhase leaves behind in the two structures it is given by
      reference, and whether it returned normally (`completed`) or threw. */
  datatype SymbolicOutcome = SymbolicOutcome(completed: bool, blockTridiags: Option<Handle>, aMinusD: Option<Handle>)

  /** Arguments of performNumericPhase; the matrix pointer may be null. */
  datatype NumericArgs = NumericArgs(
    matrix: Option<Handle>,
    partInterface: Option<Handle>,
    blockTridiags: Option<Handle>,
    addRadiallyToDiagonal: real)

  datatype NumericOutcome = NumericOutcome(completed: bool, blockTridiags: Option<Handle>)

  /** Arguments of the Details applyInverseJacobi, in the order the container passes them. */
  datatype JacobiArgs = JacobiArgs(
    matrix: Option<Handle>,
    tpetraImporter: Option<Handle>,
    asyncImporter: Option<Handle>,
    overlapCommAndComp: bool,
    x: Handle,
    y: Handle,
    z: Option<Handle>,
    partInterface: Option<Handle>,
    blockTridiags: Option<Handle>,
    aMinusD: Option<Handle>,
    work: Option<Handle>,
    normManager: NormManager,
    dampingFactor: real,
    zeroStartingSolution: bool,
    numSweeps: int,
    tolerance: real,
    checkToleranceEvery: int)

  /** What the Details applyInverseJacobi returns (`sweeps`, when it completes) and what it
      leaves in the output vector, the scratch buffers and the norm manager. */
  datatype JacobiOutcome = JacobiOutcome(
    completed: bool,
    sweeps: int,
    y: Handle,
    z: Option<Handle>,
    work: Option<Handle>,
    normManager: NormManager)

  /** One call from the container into the Details routines that do numeric work. */
  datatype Call =
    | Symbolic(symbolic: SymbolicArgs)
    | Numeric(numeric: NumericArgs)
    | InverseJacobi(jacobi: JacobiArgs)

  /** The Details routines, uninterpreted. An importer factory may return a null pointer
      (no halo is needed). */
  datatype Details = Details(
    createTpetraImporter: Handle -> Option<Handle>,
    createAsyncImporter: Handle -> Option<Handle>,
    createPartInterface: (Handle, Partitions) -> Handle,
    createBlockTridiags: Handle -> Handle,
    createNormManager: Handle -> NormManager,
    performSymbolicPhase: SymbolicArgs -> SymbolicOutcome,
    performNumericPhase: NumericArgs -> NumericOutcome,
    applyInverseJacobi: JacobiArgs -> JacobiOutcome)
}
