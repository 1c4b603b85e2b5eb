/** The container object itself: its fields are updated in place by the public operations,
    each of which is proved to do what the matching function of BlockTriDiLifecycle says. */
module Ifpack2 {
  import opened BlockTriDiContainerDetails
  import opened BlockTriDiParameters
  import L = BlockTriDiLifecycle

  /** Transposition mode of the legacy single-vector interface. */
  datatype ETransp = NoTrans | Trans | ConjTrans

  class BlockTriDiContainer {
    var dampingFactor: real
    var initialized: bool
    var computed: bool
    var matrix: Option<Handle>
    var tpetraImporter: Option<Handle>
    var asyncImporter: Option<Handle>
    var overlapCommAndComp: bool
    var z: Option<Handle>
    var partInterface: Option<Handle>
    var blockTridiags: Option<Handle>
    var aMinusD: Option<Handle>
    var work: Option<Handle>
    var normManager: NormManager

    /** Every call this container has made into the Details phases, in order. */
    ghost var trace: seq<Call>

    /** The fields, as one value. */
    function Abstract(): L.State
      reads this
    {
      L.State(dampingFactor, initialized, computed, matrix, tpetraImporter, asyncImporter, overlapCommAndComp,
              z, partInterface, blockTridiags, aMinusD, work, normManager)
    }

    ghost predicate Valid()
      reads this
    {
      L.Valid(Abstract())
    }

    /** The part of construction done before initInternal: the base container keeps the damping
        factor and starts neither initialized nor computed. */
    constructor (dampingFactor: real)
      ensures Abstract() == L.Unset(dampingFactor) && trace == []
    {
      this.dampingFactor := dampingFactor;
      initialized, computed := false, false;
      matrix, tpetraImporter, asyncImporter := None, None, None;
      overlapCommAndComp := false;
      z, partInterface, blockTridiags, aMinusD, work := None, None, None, None, None;
      normManager := EmptyNormManager;
      trace := [];
    }

    /** initInternal, run once on a container fresh from the constructor. On failure the matrix
        pointer is null and nothing else was touched. */
    method InitInternal(matrix: RowMatrix, partitions: Partitions, importer: Option<Handle>,
                        overlapCommAndComp: bool, useSeqMethod: bool, d: Details) returns (o: L.Outcome)
      requires Abstract() == L.Unset(dampingFactor)
      modifies this
      ensures trace == old(trace)
      ensures o.Pass? <==> matrix.isBlockCrs
      ensures o.Pass? ==> L.InitInternal(old(dampingFactor), matrix, partitions, importer, overlapCommAndComp, useSeqMethod, d)
                          == L.Ok(Abstract())
      ensures o.Fail? ==> o.error == L.NotBlockCrsMatrix && Abstract() == old(Abstract())
      ensures Valid() && !(tpetraImporter.Some? && asyncImporter.Some?) && !this.overlapCommAndComp
    {
      if !matrix.isBlockCrs {
        this.matrix := None;
        return L.Fail(L.NotBlockCrsMatrix);
      }
      var a := matrix.id;
      this.matrix := Some(a);
      tpetraImporter := None;
      asyncImporter := None;
      if importer.None? {
        if useSeqMethod {
          tpetraImporter := d.createTpetraImporter(a);
        } else {
          asyncImporter := d.createAsyncImporter(a);
        }
      } else {
        tpetraImporter := importer;
      }
      // the requested overlap of communication and computation is switched off
      this.overlapCommAndComp := false;
      z := None;
      var pi := d.createPartInterface(a, partitions);
      partInterface := Some(pi);
      blockTridiags := Some(d.createBlockTridiags(pi));
      normManager := d.createNormManager(a);
      o := L.Pass;
    }

    /** The constructor taking an importer: no sequential method, no overlap. */
    static method Create(matrix: RowMatrix, partitions: Partitions, importer: Option<Handle>,
                         overlapLevel: int, dampingFactor: real, d: Details) returns (r: L.Result<BlockTriDiContainer>)
      ensures r.Ok? <==> matrix.isBlockCrs
      ensures r.Err? ==> r.error == L.NotBlockCrsMatrix
      ensures r.Ok? ==> fresh(r.value) && r.value.trace == [] && r.value.Valid()
      ensures r.Ok? ==> L.ConstructWithImporter(matrix, partitions, importer, overlapLevel, dampingFactor, d) == L.Ok(r.value.Abstract())
    {
      var c := new BlockTriDiContainer(dampingFactor);
      var o := c.InitInternal(matrix, partitions, importer, false, false, d);
      if o.Fail? {
        return L.Err(o.error);
      }
      r := L.Ok(c);
    }

    /** The constructor taking the overlap and sequential-method flags: no importer is given and
        the damping factor is one. */
    static method CreateWithFlags(matrix: RowMatrix, partitions: Partitions, overlapCommAndComp: bool,
                                  useSeqMethod: bool, d: Details) returns (r: L.Result<BlockTriDiContainer>)
      ensures r.Ok? <==> matrix.isBlockCrs
      ensures r.Err? ==> r.error == L.NotBlockCrsMatrix
      ensures r.Ok? ==> fresh(r.value) && r.value.trace == [] && r.value.Valid()
      ensures r.Ok? ==> L.ConstructWithFlags(matrix, partitions, overlapCommAndComp, useSeqMethod, d) == L.Ok(r.value.Abstract())
    {
      var c := new BlockTriDiContainer(1.0);
      var o := c.InitInternal(matrix, partitions, None, overlapCommAndComp, useSeqMethod, d);
      if o.Fail? {
        return L.Err(o.error);
      }
      r := L.Ok(c);
    }

    function IsInitialized(): (b: bool)
      reads this
      requires Valid()
      ensures !b ==> !IsComputed()
    {
      initialized
    }

    function IsComputed(): (b: bool)
      reads this
      requires Valid()
      ensures b ==> initialized
    {
      computed
    }

    method Initialize(d: Details) returns (o: L.Outcome)
      modifies this
      ensures Abstract() == L.Initialize(old(Abstract()), d).next
      ensures o == L.Initialize(old(Abstract()), d).outcome
      ensures trace == old(trace) + L.Initialize(old(Abstract()), d).calls
    {
      initialized := true;
      // a new initialize means everything is to be recomputed
      computed := false;
      if matrix.None? {
        return L.Fail(L.NullMatrix);
      }
      var args := SymbolicArgs(matrix.value, partInterface, blockTridiags, aMinusD, overlapCommAndComp);
      trace := trace + [Symbolic(args)];
      var out := d.performSymbolicPhase(args);
      blockTridiags, aMinusD := out.blockTridiags, out.aMinusD;
      o := if out.completed then L.Pass else L.Fail(L.SymbolicPhaseFailed);
    }

    /** The numeric phase both compute overloads end with. */
    method NumericPhase(addend: real, d: Details) returns (o: L.Outcome)
      modifies this
      ensures Abstract() == L.NumericPhase(old(Abstract()), addend, d).next
      ensures o == L.NumericPhase(old(Abstract()), addend, d).outcome
      ensures trace == old(trace) + L.NumericPhase(old(Abstract()), addend, d).calls
    {
      var args := NumericArgs(matrix, partInterface, blockTridiags, addend);
      trace := trace + [Numeric(args)];
      var out := d.performNumericPhase(args);
      blockTridiags := out.blockTridiags;
      if out.completed {
        computed := true;
        o := L.Pass;
      } else {
        o := L.Fail(L.NumericPhaseFailed);
      }
    }

    method Compute(d: Details) returns (o: L.Outcome)
      modifies this
      ensures Abstract() == L.Compute(old(Abstract()), d).next
      ensures o == L.Compute(old(Abstract()), d).outcome
      ensures trace == old(trace) + L.Compute(old(Abstract()), d).calls
    {
      computed := false;
      if !initialized {
        o := Initialize(d);
        if o.Fail? {
          return;
        }
      }
      o := NumericPhase(0.0, d);
    }

    method ComputeWithParameters(p: ComputeParameters, d: Details) returns (o: L.Outcome)
      modifies this
      ensures Abstract() == L.ComputeWithParameters(old(Abstract()), p, d).next
      ensures o == L.ComputeWithParameters(old(Abstract()), p, d).outcome
      ensures trace == old(trace) + L.ComputeWithParameters(old(Abstract()), p, d).calls
    {
      computed := false;
      if !initialized {
        o := Initialize(d);
        if o.Fail? {
          return;
        }
      }
      o := NumericPhase(p.addRadiallyToDiagonal, d);
    }

    method ClearInternal()
      modifies this
      ensures Abstract() == L.ClearInternal(old(Abstract())) && trace == old(trace)
    {
      matrix := None;
      tpetraImporter := None;
      asyncImporter := None;
      z := None;
      partInterface := None;
      blockTridiags := None;
      aMinusD := None;
      work := None;
      normManager := EmptyNormManager;
    }

    method ClearBlocks()
      modifies this
      ensures Abstract() == L.ClearBlocks(old(Abstract())) && trace == old(trace)
    {
      ClearInternal();
      initialized := false;
      computed := false;
    }

    /** Hands one call to the Details applyInverseJacobi and keeps the scratch buffers and norm
        manager it leaves. */
    method RunInverseJacobi(call: Call, d: Details) returns (y: Handle, sweeps: L.Result<int>)
      requires call.InverseJacobi?
      modifies this
      ensures var st := L.RunInverseJacobi(old(Abstract()), call, d);
        Abstract() == st.next && y == st.y && sweeps == st.sweeps && trace == old(trace) + [call]
    {
      trace := trace + [call];
      var out := d.applyInverseJacobi(call.jacobi);
      z, work, normManager := out.z, out.work, out.normManager;
      y := out.y;
      sweeps := if out.completed then L.Ok(out.sweeps) else L.Err(L.InverseJacobiFailed);
    }

    /** applyInverseJacobi(X, Y, zeroStartingSolution, numSweeps): returns the output vector. */
    method ApplyInverseJacobiSweeps(x: Handle, y: Handle, zeroStartingSolution: bool, numSweeps: int, d: Details)
      returns (yOut: Handle, o: L.Outcome)
      modifies this
      ensures var st := L.ApplyInverseJacobiSweeps(old(Abstract()), x, y, zeroStartingSolution, numSweeps, d);
        && Abstract() == st.next && yOut == st.y && trace == old(trace) + [st.call]
        && (o.Pass? <==> st.sweeps.Ok?)
    {
      var tol := 0.0;
      var checkTolEvery := 1;
      var call := L.JacobiCall(Abstract(), x, y, dampingFactor, zeroStartingSolution, numSweeps, tol, checkTolEvery);
      var sweeps;
      yOut, sweeps := RunInverseJacobi(call, d);
      o := if sweeps.Ok? then L.Pass else L.Fail(sweeps.error);
    }

    /** applyInverseJacobi(X, Y, ApplyParameters): returns the output vector and the sweep count. */
    method ApplyInverseJacobi(x: Handle, y: Handle, p: ApplyParameters, d: Details)
      returns (yOut: Handle, sweeps: L.Result<int>)
      modifies this
      ensures var st := L.ApplyInverseJacobi(old(Abstract()), x, y, p, d);
        Abstract() == st.next && yOut == st.y && sweeps == st.sweeps && trace == old(trace) + [st.call]
    {
      var call := L.JacobiCall(Abstract(), x, y, p.dampingFactor, p.zeroStartingSolution, p.maxNumSweeps,
                               p.tolerance, p.checkToleranceEvery);
      yOut, sweeps := RunInverseJacobi(call, d);
    }

    function CreateDefaultApplyParameters(): ApplyParameters
      reads this
    {
      BlockTriDiParameters.CreateDefaultApplyParameters(dampingFactor)
    }

    function CreateDefaultComputeParameters(): ComputeParameters {
      BlockTriDiParameters.CreateDefaultComputeParameters()
    }

    function GetNorms0(): seq<real>
      reads this
    {
      L.GetNorms0(normManager)
    }

    function GetNormsFinal(): seq<real>
      reads this
    {
      L.GetNormsFinal(normManager)
    }

    function Description(base: string): string
      reads this
    {
      L.Description(Abstract(), base)
    }

    /** The legacy single-vector apply always fails, pointing to the sweep-based interface. */
    method Apply(x: Handle, y: Handle, blockIndex: int, stride: int, mode: ETransp, alpha: real, beta: real)
      returns (o: L.Outcome)
      ensures o == L.Fail(L.NotImplemented(L.ApplyMessage))
    {
      o := L.Fail(L.NotImplemented(L.ApplyMessage));
    }

    /** The legacy weighted apply always fails. */
    method WeightedApply(x: Handle, y: Handle, dVec: Handle, blockIndex: int, stride: int, mode: ETransp,
                         alpha: real, beta: real) returns (o: L.Outcome)
      ensures o == L.Fail(L.NotImplemented(L.WeightedApplyMessage))
    {
      o := L.Fail(L.NotImplemented(L.WeightedApplyMessage));
    }
  }
}
