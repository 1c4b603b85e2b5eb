# Block-tridiagonal container lifecycle

This project models the public face of `Ifpack2::BlockTriDiContainer`, a preconditioner
container from a distributed sparse linear-algebra preconditioning package. The container
holds:

- a block CRS matrix;
- either a synchronous (Tpetra) importer, an asynchronous importer, or none;
- the part interface, the block tridiagonals and the off-block-tridiagonal ("A minus D")
  structure;
- scratch buffers and a norm manager;
- two status flags, `IsInitialized_` and `IsComputed_`.

`initialize()` runs the symbolic phase. The two `compute` overloads run the numeric phase and
initialize first when needed. `clearBlocks()` drops everything. The two `applyInverseJacobi`
overloads forward to the relaxation driver. The numeric work itself lives in the
`BlockTriDiContainerDetails` namespace. This model treats those routines as uninterpreted
functions, supplied as a `Details` value of total functions. The results below hold for every
such choice of functions, with three restrictions listed under "## Left out": the factories
return normally, every norm manager a routine yields is well formed, and each routine's answer
depends only on the handles it receives. Within those, the phase routines may return or throw.

Files:

- `details.dfy` (module `BlockTriDiContainerDetails`): handles for the objects held through
  reference-counted pointers. It also has the argument and outcome records of each Details
  call, the norm manager's visible state and the `Details` record.
- `parameters.dfy` (module `BlockTriDiParameters`): `ApplyParameters`, `ComputeParameters`,
  their defaults and the `createDefault*Parameters` accessors.
- `lifecycle.dfy` (module `BlockTriDiLifecycle`): the container's fields as a `State` value.
  Each public operation is a function from the state before the call. It gives the state
  after, the Details calls made, in order, and the outcome: normal return, or the exception
  raised or let through. This file also holds the invariant `Valid` and lemmas over whole
  sequences of calls (`Run`).
- `container.dfy` (module `Ifpack2`): the class `BlockTriDiContainer`, whose fields are
  updated step by step as in the source. Each method is proved to produce exactly the state,
  outcome and Details calls that the matching `BlockTriDiLifecycle` function gives. A ghost
  `trace` records every Details phase call the object has made.

Behaviour of the code that the model keeps and that a reader might not expect:

- `initialize()` sets `IsInitialized_` (and clears `IsComputed_`) before it checks the matrix
  pointer and before the symbolic phase runs. An `initialize()` that throws therefore leaves
  the container marked initialized. A later `compute()` then skips initialization.
- `clearBlocks()` nulls the matrix pointer. Only the constructors set it again, so after
  `clearBlocks()` every `initialize()` fails (`InitializeFailsAfterClear`).
- As the comment at lines 102-105 of the source lists, a container holds no importer, only
  the synchronous one, or only the asynchronous one: a factory may return a null pointer, and
  both are never set.
- The overlap of communication and computation is always off. The constructor argument has no
  effect (`OverlapArgumentIgnored`).
- The numeric phase is not given the A-minus-D structure; only the block tridiagonals change
  during the numeric phase. When `compute` has to initialize first, the symbolic phase may
  rewrite both the block tridiagonals and the A-minus-D structure.
- The block tridiagonals a successful `compute` leaves are the ones the following
  `applyInverseJacobi` hands to the driver (`ApplyUsesComputedFactors`).

The class's read accessors `GetNorms0`, `GetNormsFinal`, `Description`,
`CreateDefaultApplyParameters` and `CreateDefaultComputeParameters` are one-line delegations
to the `BlockTriDiLifecycle` and `BlockTriDiParameters` functions of the same names applied to
the object's fields. The contracts, and the rows below, are on those functions.

## Model

| member | source | states |
|---|---|---|
| `BlockTriDiLifecycle.ImporterChoice` | packages/ifpack2/src/Ifpack2_BlockTriDiContainer_def.hpp:91-105 | a given importer becomes the synchronous importer and the asynchronous one stays null; without one, only the Tpetra factory runs when `useSeqMethod` is set, and only the async factory otherwise; never both importers |
| `BlockTriDiLifecycle.InitInternal` | packages/ifpack2/src/Ifpack2_BlockTriDiContainer_def.hpp:78-115 | fails with "not a block CRS matrix" exactly when the cast fails; otherwise the result is valid and keeps the matrix and the chosen importers, has overlap off, builds the part interface, block tridiagonals and norm manager from the factories, and sets neither flag |
| `BlockTriDiLifecycle.ImporterOf` | packages/ifpack2/src/Ifpack2_BlockTriDiContainer_def.hpp:102-105 | the three importer cases the code lists: none, synchronous only, asynchronous only |
| `BlockTriDiLifecycle.ImporterVariantRoundTrip` | packages/ifpack2/src/Ifpack2_BlockTriDiContainer_def.hpp:102-105 | on a valid container the two nullable importer fields and the tagged variant carry the same information |
| `BlockTriDiLifecycle.OverlapArgumentIgnored` | packages/ifpack2/src/Ifpack2_BlockTriDiContainer_def.hpp:107-108 | the container built is the same whatever overlap flag is passed |
| `BlockTriDiLifecycle.ConstructWithImporter` | packages/ifpack2/src/Ifpack2_BlockTriDiContainer_def.hpp:141-152 | the importer-taking constructor keeps the damping factor; without an importer it uses the asynchronous factory, since it passes `useSeqMethod=false`; a given importer becomes the synchronous one |
| `BlockTriDiLifecycle.ConstructWithFlags` | packages/ifpack2/src/Ifpack2_BlockTriDiContainer_def.hpp:154-163 | the flag-taking constructor has damping factor one and overlap off, and the importer factory is chosen by `useSeqMethod` |
| `Ifpack2.BlockTriDiContainer.InitInternal` | packages/ifpack2/src/Ifpack2_BlockTriDiContainer_def.hpp:78-115 | the fields, updated in place, end as `BlockTriDiLifecycle.InitInternal` says; on a failed cast nothing changes but the null matrix; afterwards the object is valid, holds at most one importer and has overlap off |
| `Ifpack2.BlockTriDiContainer.Create` | packages/ifpack2/src/Ifpack2_BlockTriDiContainer_def.hpp:141-152 | construction succeeds exactly for a block CRS matrix; the new valid object holds `ConstructWithImporter`'s state and has made no Details phase call |
| `Ifpack2.BlockTriDiContainer.CreateWithFlags` | packages/ifpack2/src/Ifpack2_BlockTriDiContainer_def.hpp:154-163 | as `Create`, with `ConstructWithFlags`'s state |
| `Ifpack2.BlockTriDiContainer.IsInitialized` | packages/ifpack2/src/Ifpack2_BlockTriDiContainer_def.hpp:170-174 | a valid container that is not initialized is not computed either |
| `Ifpack2.BlockTriDiContainer.IsComputed` | packages/ifpack2/src/Ifpack2_BlockTriDiContainer_def.hpp:176-180 | a valid container that is computed is initialized |
| `BlockTriDiLifecycle.Initialize` | packages/ifpack2/src/Ifpack2_BlockTriDiContainer_def.hpp:189-201 | whatever the prior state and outcome, afterwards initialized and not computed; a null matrix fails with no Details call and changes only the flags; otherwise exactly one symbolic-phase call, with the current matrix, structures and overlap flag, and the block tridiagonals and A-minus-D become what that phase leaves; success exactly when it completes; nothing else changes; validity is preserved |
| `Ifpack2.BlockTriDiContainer.Initialize` | packages/ifpack2/src/Ifpack2_BlockTriDiContainer_def.hpp:189-201 | new fields, outcome and recorded calls are those of `BlockTriDiLifecycle.Initialize` |
| `BlockTriDiLifecycle.NumericPhase` | packages/ifpack2/src/Ifpack2_BlockTriDiContainer_def.hpp:209-213 | one numeric-phase call with the current matrix, part interface, block tridiagonals and the addend; the computed flag is set only when the phase completes; the block tridiagonals become what the phase leaves; nothing else changes |
| `Ifpack2.BlockTriDiContainer.NumericPhase` | packages/ifpack2/src/Ifpack2_BlockTriDiContainer_def.hpp:266-270 | new fields, outcome and recorded call are those of `BlockTriDiLifecycle.NumericPhase` |
| `BlockTriDiLifecycle.Compute` | packages/ifpack2/src/Ifpack2_BlockTriDiContainer_def.hpp:203-214 | ends initialized; computed exactly when it succeeds, so a failed numeric phase leaves it not computed; initialize runs, and the symbolic phase with it, exactly when the container was not initialized; a failing initialize stops it before any numeric call; the numeric call gets a zero addend and the block tridiagonals kept are what it leaves; validity is preserved |
| `Ifpack2.BlockTriDiContainer.Compute` | packages/ifpack2/src/Ifpack2_BlockTriDiContainer_def.hpp:203-214 | new fields, outcome and recorded calls are those of `BlockTriDiLifecycle.Compute`; the method calls `Initialize` exactly when not initialized |
| `BlockTriDiLifecycle.ComputeWithParameters` | packages/ifpack2/src/Ifpack2_BlockTriDiContainer_def.hpp:260-271 | the same promises as `Compute`, with the caller's `addRadiallyToDiagonal` passed to the numeric phase |
| `Ifpack2.BlockTriDiContainer.ComputeWithParameters` | packages/ifpack2/src/Ifpack2_BlockTriDiContainer_def.hpp:260-271 | new fields, outcome and recorded calls are those of `BlockTriDiLifecycle.ComputeWithParameters` |
| `BlockTriDiLifecycle.ComputeUsesDefaultParameters` | packages/ifpack2/src/Ifpack2_BlockTriDiContainer_def.hpp:248-258 | `compute()` behaves exactly as `compute(createDefaultComputeParameters())`: its zero addend is the default one |
| `BlockTriDiLifecycle.FailedNumericPhaseLeavesNotComputed` | packages/ifpack2/src/Ifpack2_BlockTriDiContainer_def.hpp:261-271 | when the numeric phase throws, the container is left initialized and not computed, whatever it was before |
| `BlockTriDiLifecycle.ClearInternal` | packages/ifpack2/src/Ifpack2_BlockTriDiContainer_def.hpp:117-139 | the matrix, both importers, the scratch vector, part interface, block tridiagonals, A-minus-D and work buffer are null or empty; the norm manager is default; nothing else changes |
| `Ifpack2.BlockTriDiContainer.ClearInternal` | packages/ifpack2/src/Ifpack2_BlockTriDiContainer_def.hpp:117-139 | new fields are those of `BlockTriDiLifecycle.ClearInternal` |
| `BlockTriDiLifecycle.ClearBlocks` | packages/ifpack2/src/Ifpack2_BlockTriDiContainer_def.hpp:216-222 | after `clearInternal`, neither initialized nor computed; validity is preserved |
| `Ifpack2.BlockTriDiContainer.ClearBlocks` | packages/ifpack2/src/Ifpack2_BlockTriDiContainer_def.hpp:216-222 | new fields are those of `BlockTriDiLifecycle.ClearBlocks` |
| `BlockTriDiLifecycle.ClearBlocksForgetsHistory` | packages/ifpack2/src/Ifpack2_BlockTriDiContainer_def.hpp:117-139 | two cleared containers with the same damping factor and overlap flag are identical |
| `BlockTriDiLifecycle.ClearedNormsAreEmpty` | packages/ifpack2/src/Ifpack2_BlockTriDiContainer_def.hpp:120-139 | after `clearBlocks` both norm views are empty |
| `BlockTriDiLifecycle.RunInverseJacobi` | packages/ifpack2/src/Ifpack2_BlockTriDiContainer_def.hpp:289-311 | the Details driver gets the call unchanged; only the scratch vector, work buffer and norm manager change, and they become what the driver leaves; the output vector is the driver's; the returned sweep count is the driver's when it completes |
| `Ifpack2.BlockTriDiContainer.RunInverseJacobi` | packages/ifpack2/src/Ifpack2_BlockTriDiContainer_def.hpp:289-311 | new fields, output vector, result and recorded call are those of `BlockTriDiLifecycle.RunInverseJacobi` |
| `BlockTriDiLifecycle.ApplyInverseJacobi` | packages/ifpack2/src/Ifpack2_BlockTriDiContainer_def.hpp:289-311 | each field of `ApplyParameters` is passed on unchanged, with X, Y and the container's matrix, importers, overlap flag, scratch vector, part interface, block tridiagonals, A-minus-D, work buffer and norm manager; the output vector, scratch, work buffer, norms and sweep count are the driver's; flags, setup and structures are untouched and validity is preserved |
| `Ifpack2.BlockTriDiContainer.ApplyInverseJacobi` | packages/ifpack2/src/Ifpack2_BlockTriDiContainer_def.hpp:289-311 | new fields, output vector, result and recorded call are those of `BlockTriDiLifecycle.ApplyInverseJacobi` |
| `BlockTriDiLifecycle.ApplyInverseJacobiSweeps` | packages/ifpack2/src/Ifpack2_BlockTriDiContainer_def.hpp:224-246 | the sweep-count overload passes the container's damping factor, the given flag and sweep count, tolerance 0 and a check every sweep, with X, Y and all of the container's state as the parameter overload does; the output vector, scratch, work buffer and norms are the driver's; nothing else changes |
| `BlockTriDiLifecycle.ApplyUsesComputedFactors` | packages/ifpack2/src/Ifpack2_BlockTriDiContainer_def.hpp:261-308 | on an initialized container, the block tridiagonals the numeric phase of `compute(params)` leaves are the ones the next `applyInverseJacobi` passes to the driver, with the A-minus-D structure and part interface unchanged |
| `Ifpack2.BlockTriDiContainer.ApplyInverseJacobiSweeps` | packages/ifpack2/src/Ifpack2_BlockTriDiContainer_def.hpp:224-246 | new fields, output vector and recorded call are those of `BlockTriDiLifecycle.ApplyInverseJacobiSweeps`; passes exactly when the driver completes |
| `BlockTriDiLifecycle.SweepsOverloadForwardsDefaults` | packages/ifpack2/src/Ifpack2_BlockTriDiContainer_def.hpp:224-311 | the sweep-count overload is the parameter overload applied to `createDefaultApplyParameters()` with the starting-solution flag and the sweep count replaced |
| `BlockTriDiParameters.DefaultApplyParameters` | packages/ifpack2/src/Ifpack2_BlockTriDiContainer_def.hpp:273-278 | defaults: no zero starting solution, damping 1, one sweep, tolerance 0, check every sweep |
| `BlockTriDiParameters.DefaultComputeParameters` | packages/ifpack2/src/Ifpack2_BlockTriDiContainer_def.hpp:248-251 | the default radial addend is zero |
| `BlockTriDiParameters.CreateDefaultApplyParameters` | packages/ifpack2/src/Ifpack2_BlockTriDiContainer_def.hpp:280-287 | the default record with the damping factor replaced by the container's |
| `BlockTriDiParameters.CreateDefaultComputeParameters` | packages/ifpack2/src/Ifpack2_BlockTriDiContainer_def.hpp:253-258 | a zero radial addend |
| `BlockTriDiParameters.CreateDefaultApplyParametersOnlyDamping` | packages/ifpack2/src/Ifpack2_BlockTriDiContainer_def.hpp:273-287 | every field but the damping factor is the default, and the result equals the defaults exactly when the container's damping factor is one |
| `BlockTriDiLifecycle.NormView` | packages/ifpack2/src/Ifpack2_BlockTriDiContainer_def.hpp:316-317 | a view of length zero for a null array, else of the given length, holding the array's leading entries |
| `BlockTriDiLifecycle.GetNorms0` | packages/ifpack2/src/Ifpack2_BlockTriDiContainer_def.hpp:313-318 | length 0 when the sweep-0 norm array is null, else `getNumVectors()`, with the array's entries |
| `BlockTriDiLifecycle.GetNormsFinal` | packages/ifpack2/src/Ifpack2_BlockTriDiContainer_def.hpp:320-325 | the same for the final norm array |
| `BlockTriDiLifecycle.Description` | packages/ifpack2/src/Ifpack2_BlockTriDiContainer_def.hpp:355-374 | each of the three status texts appears exactly in its case: "initialized, computed" only when both flags are set, "initialized, not computed" only when initialized and not computed, "not initialized, not computed" only when not initialized |
| `BlockTriDiLifecycle.DescriptionDeterminesStatus` | packages/ifpack2/src/Ifpack2_BlockTriDiContainer_def.hpp:355-374 | on valid containers two descriptions agree exactly when both flags agree |
| `Ifpack2.BlockTriDiContainer.Apply` | packages/ifpack2/src/Ifpack2_BlockTriDiContainer_def.hpp:327-336 | always fails, with the message pointing to "MT Split Jacobi" |
| `Ifpack2.BlockTriDiContainer.WeightedApply` | packages/ifpack2/src/Ifpack2_BlockTriDiContainer_def.hpp:338-344 | always fails as not implemented |
| `BlockTriDiLifecycle.StepPreservesValid` | packages/ifpack2/src/Ifpack2_BlockTriDiContainer_def.hpp:189-311 | every public state-changing call keeps the container valid |
| `BlockTriDiLifecycle.RunPreservesValid` | packages/ifpack2/src/Ifpack2_BlockTriDiContainer_def.hpp:190-222 | after any sequence of calls: computed implies initialized, at most one importer, overlap off |
| `BlockTriDiLifecycle.RunWithoutClearKeepsSetup` | packages/ifpack2/src/Ifpack2_BlockTriDiContainer_def.hpp:78-139 | until `clearBlocks`, no call changes the matrix, the importers, the overlap flag, the part interface or the damping factor |
| `BlockTriDiLifecycle.DetachedStaysDetached` | packages/ifpack2/src/Ifpack2_BlockTriDiContainer_def.hpp:117-139 | no call gives a container without a matrix a matrix, an importer or a part interface back |
| `BlockTriDiLifecycle.InitializeFailsAfterClear` | packages/ifpack2/src/Ifpack2_BlockTriDiContainer_def.hpp:190-201 | once cleared, `initialize()` fails on the null matrix, whatever is called in between |
| `BlockTriDiLifecycle.ComputedOnlyByCompute` | packages/ifpack2/src/Ifpack2_BlockTriDiContainer_def.hpp:203-271 | a sequence of calls that makes a not-computed container computed contains a `compute` |

## Left out

- The bodies of the Details routines are uninterpreted: `performSymbolicPhase`,
  `performNumericPhase`, `applyInverseJacobi`, `createPartInterface`, `createBlockTridiags`,
  the `NormManager` constructor and the two importer factories. They do block LU factorisation
  and Jacobi sweeps in floating point, halo exchange and collective reductions. Only what the
  container passes to them and stores from them is modelled.
- The importer, part-interface, block-tridiagonal and norm-manager factories are taken to
  return normally. An exception from them, such as one for a malformed partitioning, is not
  modelled, because it would come from code outside this file. For the same reason,
  `BlockTriDiLifecycle.InitInternal`, `Ifpack2.BlockTriDiContainer.Create` and
  `Ifpack2.BlockTriDiContainer.CreateWithFlags` report only the failed block-CRS cast.
- The base class `Ifpack2::Container` is not part of this model. Its constructor is taken to
  store the damping factor and to start with both flags false. The overlap level and the
  partitions it receives are accepted and not kept.
- A default-constructed `NormManager` is taken to hold no norm arrays. Its definition is not
  part of this model.
- Every norm manager a Details routine yields is taken to be well formed: a non-null norm
  array holds at least one entry per right-hand side. `GetNorms0` and `GetNormsFinal` rely on
  this, since the views they return read that many entries.
- Each Details routine is a pure function of the handles it receives. The model cannot express
  matrix values that change behind an unchanged matrix handle between two calls to `compute`.
- The output vector `Y` is an object changed in place by the Details driver. Here it is a
  handle returned by the apply methods, so aliasing between `X` and `Y` is not captured. The
  scratch vector `Z_` and the work buffer are opaque handles.
- Scalars and magnitudes are `real`: complex scalar types and floating-point rounding are not
  modelled.
- `Teuchos::Describable::description()` is a parameter of `Description`, because the base
  description text comes from outside this file.
- `setParameters` does nothing and is not modelled. `print`, `describe` and `getName` only
  format output. The destructor is empty.
- Concurrency and MPI communication are not modelled. Callers serialise calls on one
  container.
- The symbolic-ordering example driver
  (`Tacho_ExampleDirectSymbolicFactorization.hpp`) and the OpenMP unit-test harness
  (`TestOpenMP.cpp`) are not part of this model. They are file I/O, timing and
  thread-setup code with no logic of the container.
