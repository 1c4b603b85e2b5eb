/** The state of a block-tridiagonal container and what each public operation does to it,
    as functions of the state before the call. The class in module Ifpack2 is proved to
    follow these functions; the lemmas at the end relate whole sequences of calls. */
module BlockTriDiLifecycle {
  import opened BlockTriDiContainerDetails
  import opened BlockTriDiParameters

  /** The exceptions the container raises or lets through. */
  datatype Error =
    | NotBlockCrsMatrix         // construction with a matrix that is not a block CRS matrix
    | NullMatrix                // initialize() on a container whose matrix pointer is null
    | SymbolicPhaseFailed       // thrown from performSymbolicPhase
    | NumericPhaseFailed        // thrown from performNumericPhase
    | InverseJacobiFailed       // thrown from the Details applyInverseJacobi
    | NotImplemented(message: string)

  datatype Outcome = Pass | Fail(error: Error)

  datatype Result<+T> = Ok(value: T) | Err(error: Error)

  /** The fields of the container; `dampingFactor` is the base container's DampingFactor_. */
  datatype State = State(
    dampingFactor: real,
    isInitialized: bool,
    isComputed: bool,
    matrix: Option<Handle>,
    tpetraImporter: Option<Handle>,
    asyncImporter: Option<Handle>,
    overlapCommAndComp: bool,
    z: Option<Handle>,
    partInterface: Option<Handle>,
    blockTridiags: Option<Handle>,
    aMinusD: Option<Handle>,
    work: Option<Handle>,
    normManager: NormManager)

  /** The state after an operation, the Details calls it made, in order, and how it ended. */
  datatype Step = Step(next: State, calls: seq<Call>, outcome: Outcome)

  /** The state after an inverse-Jacobi application, the one Details call it made, the output
      vector it leaves, and the sweep count it returns when the call completes. */
  datatype JacobiStep = JacobiStep(next: State, call: Call, y: Handle, sweeps: Result<int>)

  /** The importer a container uses, as a tagged variant. */
  datatype Importer = NoImporter | Sync(sync: Handle) | Async(async: Handle)

  /** What every reachable container satisfies: it is computed only when initialized, it never
      holds both importers, overlap of communication and computation is off, and without a
      matrix it holds neither importer nor a part interface. */
  predicate Valid(s: State) {
    && (s.isComputed ==> s.isInitialized)
    && !(s.tpetraImporter.Some? && s.asyncImporter.Some?)
    && !s.overlapCommAndComp
    && (s.matrix.None? ==> s.tpetraImporter.None? && s.asyncImporter.None? && s.partInterface.None?)
  }

  /** The matrix, the importers, the overlap flag, the part interface and the damping factor:
      what is fixed at construction. */
  predicate SameSetup(s: State, t: State) {
    && s.dampingFactor == t.dampingFactor
    && s.matrix == t.matrix
    && s.tpetraImporter == t.tpetraImporter
    && s.asyncImporter == t.asyncImporter
    && s.overlapCommAndComp == t.overlapCommAndComp
    && s.partInterface == t.partInterface
  }

  // ---------------------------------------------------------------------------------------
  // Construction

  /** The fields of a container before initInternal runs: what the base container and the
      default member initialisers leave. */
  function Unset(dampingFactor: real): (s: State)
    ensures Valid(s) && !s.isInitialized && !s.isComputed
  {
    State(dampingFactor, false, false, None, None, None, false, None, None, None, None, None, EmptyNormManager)
  }

  /** The importer pair initInternal stores: a given importer becomes the synchronous one;
      otherwise exactly one factory runs, chosen by `useSeqMethod`. */
  function ImporterChoice(importer: Option<Handle>, useSeqMethod: bool, matrix: Handle, d: Details)
    : (r: (Option<Handle>, Option<Handle>))
    ensures !(r.0.Some? && r.1.Some?)
    ensures importer.Some? ==> r == (importer, None)
    ensures importer.None? && useSeqMethod ==> r == (d.createTpetraImporter(matrix), None)
    ensures importer.None? && !useSeqMethod ==> r == (None, d.createAsyncImporter(matrix))
  {
    if importer.None? then
      if useSeqMethod then (d.createTpetraImporter(matrix), None) else (None, d.createAsyncImporter(matrix))
    else
      (importer, None)
  }

  /** initInternal on a freshly built container: fails unless the matrix is a block CRS matrix;
      otherwise keeps the matrix, picks the importers, turns overlap off whatever
      `overlapCommAndComp` says, and builds the part interface, the block tridiagonals and
      the norm manager. Neither status flag is set. */
  function InitInternal(dampingFactor: real, matrix: RowMatrix, partitions: Partitions, importer: Option<Handle>,
                        overlapCommAndComp: bool, useSeqMethod: bool, d: Details): (r: Result<State>)
    ensures r.Err? <==> !matrix.isBlockCrs
    ensures r.Err? ==> r.error == NotBlockCrsMatrix
    ensures r.Ok? ==> var s := r.value;
      && Valid(s)
      && !s.isInitialized && !s.isComputed
      && s.dampingFactor == dampingFactor
      && s.matrix == Some(matrix.id)
      && (s.tpetraImporter, s.asyncImporter) == ImporterChoice(importer, useSeqMethod, matrix.id, d)
      && !s.overlapCommAndComp
      && s.partInterface == Some(d.createPartInterface(matrix.id, partitions))
      && s.blockTridiags == Some(d.createBlockTridiags(d.createPartInterface(matrix.id, partitions)))
      && s.normManager == d.createNormManager(matrix.id)
      && s.z.None? && s.aMinusD.None? && s.work.None?
  {
    if !matrix.isBlockCrs then Err(NotBlockCrsMatrix)
    else
      var a := matrix.id;
      var importers := ImporterChoice(importer, useSeqMethod, a, d);
      var pi := d.createPartInterface(a, partitions);
      Ok(Unset(dampingFactor).(
        matrix := Some(a),
        tpetraImporter := importers.0,
        asyncImporter := importers.1,
        overlapCommAndComp := false,
        z := None,
        partInterface := Some(pi),
        blockTridiags := Some(d.createBlockTridiags(pi)),
        normManager := d.createNormManager(a)))
  }

  /** The importer a valid container uses, as a tagged variant. */
  function ImporterOf(s: State): (r: Importer)
    requires !(s.tpetraImporter.Some? && s.asyncImporter.Some?)
    ensures r.NoImporter? <==> s.tpetraImporter.None? && s.asyncImporter.None?
    ensures r.Sync? <==> s.tpetraImporter.Some?
    ensures r.Async? <==> s.asyncImporter.Some?
  {
    if s.tpetraImporter.Some? then Sync(s.tpetraImporter.value)
    else if s.asyncImporter.Some? then Async(s.asyncImporter.value)
    else NoImporter
  }

  /** The two nullable importer fields, read back from the tagged variant. */
  function ImporterFields(i: Importer): (Option<Handle>, Option<Handle>) {
    match i
    case NoImporter => (None, None)
    case Sync(h) => (Some(h), None)
    case Async(h) => (None, Some(h))
  }

  /** The pair of nullable importers of a valid container and the tagged variant carry the
      same information: reading the variant back gives the two fields unchanged. */
  lemma ImporterVariantRoundTrip(s: State)
    requires Valid(s)
    ensures ImporterFields(ImporterOf(s)) == (s.tpetraImporter, s.asyncImporter)
  {
  }

  /** The overlap argument of a constructor has no effect on the container it builds. */
  lemma OverlapArgumentIgnored(dampingFactor: real, matrix: RowMatrix, partitions: Partitions, importer: Option<Handle>,
                               useSeqMethod: bool, d: Details, overlapA: bool, overlapB: bool)
    ensures InitInternal(dampingFactor, matrix, partitions, importer, overlapA, useSeqMethod, d)
         == InitInternal(dampingFactor, matrix, partitions, importer, overlapB, useSeqMethod, d)
  {
  }

  /** The importer-taking constructor: with no importer it uses the asynchronous factory. */
  function ConstructWithImporter(matrix: RowMatrix, partitions: Partitions, importer: Option<Handle>,
                                 overlapLevel: int, dampingFactor: real, d: Details): (r: Result<State>)
    ensures r.Ok? ==> r.value.dampingFactor == dampingFactor
    ensures r.Ok? && importer.None? ==> r.value.tpetraImporter.None? && r.value.asyncImporter == d.createAsyncImporter(matrix.id)
    ensures r.Ok? && importer.Some? ==> r.value.tpetraImporter == importer && r.value.asyncImporter.None?
  {
    InitInternal(dampingFactor, matrix, partitions, importer, false, false, d)
  }

  /** The flag-taking constructor: no given importer and a damping factor of one. */
  function ConstructWithFlags(matrix: RowMatrix, partitions: Partitions, overlapCommAndComp: bool,
                              useSeqMethod: bool, d: Details): (r: Result<State>)
    ensures r.Ok? ==> r.value.dampingFactor == 1.0 && !r.value.overlapCommAndComp
    ensures r.Ok? && useSeqMethod ==> r.value.tpetraImporter == d.createTpetraImporter(matrix.id) && r.value.asyncImporter.None?
    ensures r.Ok? && !useSeqMethod ==> r.value.tpetraImporter.None? && r.value.asyncImporter == d.createAsyncImporter(matrix.id)
  {
    InitInternal(1.0, matrix, partitions, None, overlapCommAndComp, useSeqMethod, d)
  }

  // ---------------------------------------------------------------------------------------
  // Symbolic and numeric phases

  /** The call initialize() makes into the symbolic phase. */
  function SymbolicCall(s: State): Call
    requires s.matrix.Some?
  {
    Symbolic(SymbolicArgs(s.matrix.value, s.partInterface, s.blockTridiags, s.aMinusD, s.overlapCommAndComp))
  }

  /** The call compute makes into the numeric phase, with the given radial addend. */
  function NumericCall(s: State, addend: real): Call {
    Numeric(NumericArgs(s.matrix, s.partInterface, s.blockTridiags, addend))
  }

  /** initialize(): marks the container initialized and not computed before anything else, then
      fails on a null matrix, and otherwise runs the symbolic phase on the current structures. */
  function Initialize(s: State, d: Details): (r: Step)
    ensures r.next.isInitialized && !r.next.isComputed
    ensures r.next == s.(isInitialized := true, isComputed := false,
                         blockTridiags := r.next.blockTridiags, aMinusD := r.next.aMinusD)
    ensures s.matrix.None? ==> r.calls == [] && r.outcome == Fail(NullMatrix)
    ensures s.matrix.None? ==> r.next == s.(isInitialized := true, isComputed := false)
    ensures s.matrix.Some? ==> r.calls == [SymbolicCall(s)]
    ensures s.matrix.Some? ==>
      && r.next.blockTridiags == d.performSymbolicPhase(SymbolicCall(s).symbolic).blockTridiags
      && r.next.aMinusD == d.performSymbolicPhase(SymbolicCall(s).symbolic).aMinusD
    ensures s.matrix.Some? ==> (r.outcome.Pass? <==> d.performSymbolicPhase(SymbolicCall(s).symbolic).completed)
    ensures r.outcome.Fail? ==> r.outcome.error in {NullMatrix, SymbolicPhaseFailed}
    ensures Valid(s) ==> Valid(r.next)
  {
    var s1 := s.(isInitialized := true, isComputed := false);
    if s.matrix.None? then
      Step(s1, [], Fail(NullMatrix))
    else
      var call := SymbolicCall(s);
      var out := d.performSymbolicPhase(call.symbolic);
      Step(s1.(blockTridiags := out.blockTridiags, aMinusD := out.aMinusD), [call],
           if out.completed then Pass else Fail(SymbolicPhaseFailed))
  }

  /** The numeric phase as both compute overloads run it, after they have cleared the computed
      flag: the flag is set when the phase completes and left alone when it throws. */
  function NumericPhase(s: State, addend: real, d: Details): (r: Step)
    ensures r.calls == [NumericCall(s, addend)]
    ensures r.outcome.Pass? <==> d.performNumericPhase(NumericCall(s, addend).numeric).completed
    ensures r.outcome.Fail? ==> r.outcome.error == NumericPhaseFailed
    ensures r.next == s.(isComputed := s.isComputed || r.outcome.Pass?, blockTridiags := r.next.blockTridiags)
    ensures r.next.blockTridiags == d.performNumericPhase(NumericCall(s, addend).numeric).blockTridiags
  {
    var call := NumericCall(s, addend);
    var out := d.performNumericPhase(call.numeric);
    Step(s.(isComputed := s.isComputed || out.completed, blockTridiags := out.blockTridiags), [call],
         if out.completed then Pass else Fail(NumericPhaseFailed))
  }

  /** What both compute overloads promise, for the radial addend they pass on: the container
      ends initialized; it is computed exactly when the call succeeds; initialize() runs exactly
      when the container was not initialized, and if it fails no numeric phase runs; the numeric
      phase sees the structures as initialize() left them, and the block tridiagonals kept are
      the ones the numeric phase leaves. Nothing else changes. */
  ghost predicate ComputeSpec(s: State, addend: real, d: Details, r: Step) {
    var init := Initialize(s, d);
    && r.next.isInitialized
    && (r.next.isComputed <==> r.outcome.Pass?)
    && r.next == s.(isInitialized := true, isComputed := r.next.isComputed,
                    blockTridiags := r.next.blockTridiags, aMinusD := r.next.aMinusD)
    && (s.isInitialized ==>
          && r.calls == [NumericCall(s, addend)]
          && r.next.aMinusD == s.aMinusD
          && r.next.blockTridiags == d.performNumericPhase(NumericCall(s, addend).numeric).blockTridiags
          && (r.outcome.Pass? <==> d.performNumericPhase(NumericCall(s, addend).numeric).completed))
    && (!s.isInitialized && init.outcome.Fail? ==> r == init)
    && (!s.isInitialized && init.outcome.Pass? ==>
          && r.calls == init.calls + [NumericCall(init.next, addend)]
          && r.next.aMinusD == init.next.aMinusD
          && r.next.blockTridiags == d.performNumericPhase(NumericCall(init.next, addend).numeric).blockTridiags
          && (r.outcome.Pass? <==> d.performNumericPhase(NumericCall(init.next, addend).numeric).completed))
  }

  /** The body the two compute overloads share: clear the computed flag, initialize if needed,
      run the numeric phase. */
  function ComputeWithAddend(s: State, addend: real, d: Details): Step {
    var s0 := s.(isComputed := false);
    if !s0.isInitialized then
      var init := Initialize(s0, d);
      if init.outcome.Fail? then init
      else
        var num := NumericPhase(init.next, addend, d);
        Step(num.next, init.calls + num.calls, num.outcome)
    else
      NumericPhase(s0, addend, d)
  }

  /** compute(): the numeric phase with a zero radial addend. */
  function Compute(s: State, d: Details): (r: Step)
    ensures ComputeSpec(s, 0.0, d, r)
    ensures r.outcome.Fail? ==> r.outcome.error in {NullMatrix, SymbolicPhaseFailed, NumericPhaseFailed}
    ensures Valid(s) ==> Valid(r.next)
  {
    ComputeWithAddend(s, 0.0, d)
  }

  /** compute(ComputeParameters): the numeric phase with the caller's radial addend. */
  function ComputeWithParameters(s: State, p: ComputeParameters, d: Details): (r: Step)
    ensures ComputeSpec(s, p.addRadiallyToDiagonal, d, r)
    ensures r.outcome.Fail? ==> r.outcome.error in {NullMatrix, SymbolicPhaseFailed, NumericPhaseFailed}
    ensures Valid(s) ==> Valid(r.next)
  {
    ComputeWithAddend(s, p.addRadiallyToDiagonal, d)
  }

  /** compute() is compute(ComputeParameters) with the default parameters. */
  lemma ComputeUsesDefaultParameters(s: State, d: Details)
    ensures Compute(s, d) == ComputeWithParameters(s, CreateDefaultComputeParameters(), d)
  {
  }

  /** A compute whose numeric phase throws leaves the container initialized but not computed,
      whatever its state before. */
  lemma FailedNumericPhaseLeavesNotComputed(s: State, p: ComputeParameters, d: Details)
    ensures var r := ComputeWithParameters(s, p, d);
      r.outcome == Fail(NumericPhaseFailed) ==> r.next.isInitialized && !r.next.isComputed
  {
  }

  // ---------------------------------------------------------------------------------------
  // Clearing

  /** clearInternal(): drops the matrix, both importers and every internal structure. */
  function ClearInternal(s: State): (r: State)
    ensures r.matrix.None? && r.tpetraImporter.None? && r.asyncImporter.None?
    ensures r.z.None? && r.partInterface.None? && r.blockTridiags.None? && r.aMinusD.None? && r.work.None?
    ensures r.normManager == EmptyNormManager
    ensures r == s.(matrix := None, tpetraImporter := None, asyncImporter := None, z := None, partInterface := None,
                    blockTridiags := None, aMinusD := None, work := None, normManager := EmptyNormManager)
  {
    s.(matrix := None, tpetraImporter := None, asyncImporter := None, z := None, partInterface := None,
       blockTridiags := None, aMinusD := None, work := None, normManager := EmptyNormManager)
  }

  /** clearBlocks(): clearInternal, then neither initialized nor computed. */
  function ClearBlocks(s: State): (r: State)
    ensures !r.isInitialized && !r.isComputed
    ensures r == ClearInternal(s).(isInitialized := false, isComputed := false)
    ensures Valid(s) ==> Valid(r)
  {
    ClearInternal(s).(isInitialized := false, isComputed := false)
  }

  /** After clearBlocks two containers differ at most in the damping factor and the overlap
      flag: nothing of their history survives. */
  lemma ClearBlocksForgetsHistory(s: State, t: State)
    requires s.dampingFactor == t.dampingFactor && s.overlapCommAndComp == t.overlapCommAndComp
    ensures ClearBlocks(s) == ClearBlocks(t)
  {
  }

  // ---------------------------------------------------------------------------------------
  // Inverse-Jacobi application

  /** The call into the Details applyInverseJacobi: the container's matrix, importers, overlap
      flag, structures and norm manager, and the given vectors and settings. */
  function JacobiCall(s: State, x: Handle, y: Handle, dampingFactor: real, zeroStartingSolution: bool,
                      numSweeps: int, tolerance: real, checkToleranceEvery: int): Call
  {
    InverseJacobi(JacobiArgs(s.matrix, s.tpetraImporter, s.asyncImporter, s.overlapCommAndComp, x, y, s.z,
                             s.partInterface, s.blockTridiags, s.aMinusD, s.work, s.normManager,
                             dampingFactor, zeroStartingSolution, numSweeps, tolerance, checkToleranceEvery))
  }

  /** The Details applyInverseJacobi receives the container's matrix, importers, overlap flag,
      scratch vector, structures, work buffer and norm manager as they are. */
  predicate PassesContainerState(a: JacobiArgs, s: State) {
    && a.matrix == s.matrix
    && a.tpetraImporter == s.tpetraImporter && a.asyncImporter == s.asyncImporter
    && a.overlapCommAndComp == s.overlapCommAndComp
    && a.z == s.z && a.work == s.work && a.normManager == s.normManager
    && a.partInterface == s.partInterface && a.blockTridiags == s.blockTridiags && a.aMinusD == s.aMinusD
  }

  /** Runs the Details applyInverseJacobi: only the scratch buffers and the norm manager of the
      container change, and they, the output vector and the sweep count are what the driver leaves. */
  function RunInverseJacobi(s: State, call: Call, d: Details): (r: JacobiStep)
    requires call.InverseJacobi?
    ensures r.call == call
    ensures r.next == s.(z := r.next.z, work := r.next.work, normManager := r.next.normManager)
    ensures r.sweeps.Ok? <==> d.applyInverseJacobi(call.jacobi).completed
    ensures r.sweeps.Ok? ==> r.sweeps.value == d.applyInverseJacobi(call.jacobi).sweeps
    ensures r.sweeps.Err? ==> r.sweeps.error == InverseJacobiFailed
    ensures var out := d.applyInverseJacobi(call.jacobi);
      && r.y == out.y && r.next.z == out.z && r.next.work == out.work && r.next.normManager == out.normManager
  {
    var out := d.applyInverseJacobi(call.jacobi);
    JacobiStep(s.(z := out.z, work := out.work, normManager := out.normManager), call, out.y,
               if out.completed then Ok(out.sweeps) else Err(InverseJacobiFailed))
  }

  /** applyInverseJacobi(X, Y, ApplyParameters): forwards every field of the parameters and
      returns the sweep count of the Details routine. */
  function ApplyInverseJacobi(s: State, x: Handle, y: Handle, p: ApplyParameters, d: Details): (r: JacobiStep)
    ensures r.call.InverseJacobi?
    ensures var a := r.call.jacobi;
      && a.dampingFactor == p.dampingFactor && a.zeroStartingSolution == p.zeroStartingSolution
      && a.numSweeps == p.maxNumSweeps && a.tolerance == p.tolerance
      && a.checkToleranceEvery == p.checkToleranceEvery
      && a.x == x && a.y == y && PassesContainerState(a, s)
    ensures r.next == s.(z := r.next.z, work := r.next.work, normManager := r.next.normManager)
    ensures var out := d.applyInverseJacobi(r.call.jacobi);
      && r.y == out.y && r.next.z == out.z && r.next.work == out.work && r.next.normManager == out.normManager
      && (r.sweeps.Ok? <==> out.completed)
      && (r.sweeps.Ok? ==> r.sweeps.value == out.sweeps)
    ensures Valid(s) ==> Valid(r.next)
  {
    RunInverseJacobi(s, JacobiCall(s, x, y, p.dampingFactor, p.zeroStartingSolution, p.maxNumSweeps,
                                   p.tolerance, p.checkToleranceEvery), d)
  }

  /** applyInverseJacobi(X, Y, zeroStartingSolution, numSweeps): the container's damping
      factor, a zero tolerance and a check after every sweep; the sweep count is dropped. */
  function ApplyInverseJacobiSweeps(s: State, x: Handle, y: Handle, zeroStartingSolution: bool,
                                    numSweeps: int, d: Details): (r: JacobiStep)
    ensures r.call.InverseJacobi?
    ensures var a := r.call.jacobi;
      && a.dampingFactor == s.dampingFactor && a.zeroStartingSolution == zeroStartingSolution
      && a.numSweeps == numSweeps && a.tolerance == 0.0 && a.checkToleranceEvery == 1
      && a.x == x && a.y == y && PassesContainerState(a, s)
    ensures r.next == s.(z := r.next.z, work := r.next.work, normManager := r.next.normManager)
    ensures var out := d.applyInverseJacobi(r.call.jacobi);
      && r.y == out.y && r.next.z == out.z && r.next.work == out.work && r.next.normManager == out.normManager
      && (r.sweeps.Ok? <==> out.completed)
    ensures Valid(s) ==> Valid(r.next)
  {
    RunInverseJacobi(s, JacobiCall(s, x, y, s.dampingFactor, zeroStartingSolution, numSweeps, 0.0, 1), d)
  }

  /** The sweep-count overload is the parameter overload applied to createDefaultApplyParameters
      with the starting-solution flag and the sweep count replaced. */
  lemma SweepsOverloadForwardsDefaults(s: State, x: Handle, y: Handle, zeroStartingSolution: bool,
                                       numSweeps: int, d: Details)
    ensures ApplyInverseJacobiSweeps(s, x, y, zeroStartingSolution, numSweeps, d)
         == ApplyInverseJacobi(s, x, y, CreateDefaultApplyParameters(s.dampingFactor).(
              zeroStartingSolution := zeroStartingSolution, maxNumSweeps := numSweeps), d)
  {
  }

  /** What a successful compute factors is what a following applyInverseJacobi hands to the
      driver: the block tridiagonals the numeric phase left, with the A-minus-D structure and
      the part interface the container holds. */
  lemma ApplyUsesComputedFactors(s: State, cp: ComputeParameters, x: Handle, y: Handle,
                                                    p: ApplyParameters, d: Details)
    requires s.isInitialized
    ensures var c := ComputeWithParameters(s, cp, d);
      var a := ApplyInverseJacobi(c.next, x, y, p, d).call.jacobi;
      && a.blockTridiags == d.performNumericPhase(NumericCall(s, cp.addRadiallyToDiagonal).numeric).blockTridiags
      && a.aMinusD == s.aMinusD && a.partInterface == s.partInterface
      && (c.outcome.Pass? ==> c.next.isComputed)
  {
  }

  // ---------------------------------------------------------------------------------------
  // Reads

  /** The first `numVectors` entries of a norm array, or nothing for a null pointer. */
  function NormView(p: Option<seq<real>>, numVectors: nat): (r: seq<real>)
    requires p.Some? ==> numVectors <= |p.value|
    ensures |r| == if p.Some? then numVectors else 0
    ensures p.Some? ==> forall i :: 0 <= i < |r| ==> r[i] == p.value[i]
  {
    if p.Some? then p.value[..numVectors] else []
  }

  /** getNorms0(): one norm per right-hand side from the first sweep, or none for a null array. */
  function GetNorms0(nm: NormManager): (r: seq<real>)
    ensures |r| == if nm.norms0.Some? then nm.numVectors else 0
    ensures nm.norms0.Some? ==> forall i :: 0 <= i < |r| ==> r[i] == nm.norms0.value[i]
  {
    NormView(nm.norms0, nm.numVectors)
  }

  /** getNormsFinal(): one norm per right-hand side from the last sweep, or none for a null array. */
  function GetNormsFinal(nm: NormManager): (r: seq<real>)
    ensures |r| == if nm.normsFinal.Some? then nm.numVectors else 0
    ensures nm.normsFinal.Some? ==> forall i :: 0 <= i < |r| ==> r[i] == nm.normsFinal.value[i]
  {
    NormView(nm.normsFinal, nm.numVectors)
  }

  /** After clearBlocks both norm views are empty. */
  lemma ClearedNormsAreEmpty(s: State)
    ensures GetNorms0(ClearBlocks(s).normManager) == [] && GetNormsFinal(ClearBlocks(s).normManager) == []
  {
  }

  const InitializedComputed := "{status = initialized, computed}"
  const InitializedNotComputed := "{status = initialized, not computed}"
  const NotInitialized := "{status = not initialized, not computed}"

  /** description(): the base description followed by one of three status texts. */
  function Description(s: State, base: string): (r: string)
    ensures s.isInitialized && s.isComputed <==> r == base + InitializedComputed
    ensures s.isInitialized && !s.isComputed <==> r == base + InitializedNotComputed
    ensures !s.isInitialized <==> r == base + NotInitialized
  {
    assert InitializedComputed[23] != InitializedNotComputed[23];
    assert InitializedComputed[10] != NotInitialized[10] && InitializedNotComputed[10] != NotInitialized[10];
    base + if s.isInitialized then (if s.isComputed then InitializedComputed else InitializedNotComputed) else NotInitialized
  }

  /** On valid containers the description tells both status flags exactly. */
  lemma DescriptionDeterminesStatus(s: State, t: State, base: string)
    requires Valid(s) && Valid(t)
    ensures Description(s, base) == Description(t, base)
        <==> s.isInitialized == t.isInitialized && s.isComputed == t.isComputed
  {
  }

  const ApplyMessage :=
    "BlockTriDiContainer::apply is not implemented. You may have reached this message because you want "
    + "to use this container's performance-portable Jacobi iteration. In that case, set \"relaxation: type\" "
    + "to \"MT Split Jacobi\" rather than \"Jacobi\"."

  const WeightedApplyMessage := "BlockTriDiContainer::weightedApply is not implemented."

  // ---------------------------------------------------------------------------------------
  // Sequences of calls

  /** A public call that may change the container. */
  datatype Op =
    | DoInitialize
    | DoCompute
    | DoComputeWith(params: ComputeParameters)
    | DoClearBlocks
    | DoApplyInverseJacobi(x: Handle, y: Handle, apply: ApplyParameters)
    | DoApplyInverseJacobiSweeps(x: Handle, y: Handle, zeroStartingSolution: bool, numSweeps: int)

  /** The state after one call, whether it returns normally or throws. */
  function StepState(s: State, op: Op, d: Details): State {
    match op
    case DoInitialize => Initialize(s, d).next
    case DoCompute => Compute(s, d).next
    case DoComputeWith(p) => ComputeWithParameters(s, p, d).next
    case DoClearBlocks => ClearBlocks(s)
    case DoApplyInverseJacobi(x, y, p) => ApplyInverseJacobi(s, x, y, p, d).next
    case DoApplyInverseJacobiSweeps(x, y, z, n) => ApplyInverseJacobiSweeps(s, x, y, z, n, d).next
  }

  /** The state after a sequence of calls on one container. */
  function Run(s: State, ops: seq<Op>, d: Details): State
    decreases |ops|
  {
    if ops == [] then s else Run(StepState(s, ops[0], d), ops[1..], d)
  }

  /** Every public call keeps the container valid. */
  lemma StepPreservesValid(s: State, op: Op, d: Details)
    requires Valid(s)
    ensures Valid(StepState(s, op, d))
  {
  }

  /** The flag invariant, importer exclusivity and the disabled overlap flag hold after any
      sequence of calls on a valid container. */
  lemma {:induction false} RunPreservesValid(s: State, ops: seq<Op>, d: Details)
    requires Valid(s)
    ensures Valid(Run(s, ops, d))
    decreases |ops|
  {
    if ops != [] {
      StepPreservesValid(s, ops[0], d);
      RunPreservesValid(StepState(s, ops[0], d), ops[1..], d);
    }
  }

  /** Until clearBlocks, the matrix, importers, overlap flag, part interface and damping factor
      stay as construction left them. */
  lemma {:induction false} RunWithoutClearKeepsSetup(s: State, ops: seq<Op>, d: Details)
    requires forall i | 0 <= i < |ops| :: !ops[i].DoClearBlocks?
    ensures SameSetup(s, Run(s, ops, d))
    decreases |ops|
  {
    if ops != [] {
      var t := StepState(s, ops[0], d);
      assert SameSetup(s, t);
      RunWithoutClearKeepsSetup(t, ops[1..], d);
    }
  }

  /** A container without a matrix never gets one back: nothing after clearBlocks restores the
      matrix, an importer or the part interface. */
  lemma {:induction false} DetachedStaysDetached(s: State, ops: seq<Op>, d: Details)
    requires s.matrix.None? && s.tpetraImporter.None? && s.asyncImporter.None? && s.partInterface.None?
    ensures var t := Run(s, ops, d);
      t.matrix.None? && t.tpetraImporter.None? && t.asyncImporter.None? && t.partInterface.None?
    decreases |ops|
  {
    if ops != [] {
      DetachedStaysDetached(StepState(s, ops[0], d), ops[1..], d);
    }
  }

  /** Once cleared, initialize() fails on the null matrix whatever is called in between. */
  lemma InitializeFailsAfterClear(s: State, ops: seq<Op>, d: Details)
    ensures Initialize(Run(ClearBlocks(s), ops, d), d).outcome == Fail(NullMatrix)
  {
    DetachedStaysDetached(ClearBlocks(s), ops, d);
  }

  predicate IsCompute(op: Op) {
    op.DoCompute? || op.DoComputeWith?
  }

  /** Only a compute makes a container computed: a sequence of calls that starts not computed
      and ends computed contains a compute. */
  lemma {:induction false} ComputedOnlyByCompute(s: State, ops: seq<Op>, d: Details)
    requires !s.isComputed && Run(s, ops, d).isComputed
    ensures exists i | 0 <= i < |ops| :: IsCompute(ops[i])
    decreases |ops|
  {
    assert ops != [];
    var t := StepState(s, ops[0], d);
    if !IsCompute(ops[0]) {
      assert !t.isComputed;
      ComputedOnlyByCompute(t, ops[1..], d);
      var i :| 0 <= i < |ops[1..]| && IsCompute(ops[1..][i]);
      assert IsCompute(ops[i + 1]);
    }
  }
}
