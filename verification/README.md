# Sequential vectors, the vector packer and Tao evaluation dispatch

This project is a Dafny model of three imperative pieces of PETSc and proofs about them.

- **SeqVector** (`seq_vec.dfy`) covers `src/vec/impls/seq/bvec2.c`, the sequential vector. Its header is a class holding
  - the local and global length,
  - the block size,
  - the value array, which the vector may or may not own,
  - the reference count.

  The point-wise insert/add kernel (`VecSetValues_Seq`) and the blocked one (`VecSetValuesBlocked_Seq`) write into the array in place. Each is proved against a specification function `Apply`, and the meaning of `Apply` is proved separately:
  - in insert mode, the last write to a position wins;
  - in add mode, a position gains the sum of everything aimed at it;
  - an untouched position keeps its value.

  The blocked kernel is the point-wise kernel applied to the expanded positions `bs*ix[i] + j`. The model also covers creation with a fresh zeroed array or with a borrowed array, the size stub, duplication, the ownership range and reference-counted destruction. Range checks are those of the debug build.
- **VecPacking** (`vec_pack.dfy`) covers `src/dm/da/utils/pack.c`, the `VecPack` packer. It is a class holding
  - the rank,
  - this rank's packed length,
  - the links in insertion order,
  - the DA and redundant-array counters,
  - the packed global vector once it exists.

  Adding links is allowed only until the global vector is created. The first creation freezes the layout: each link gets the running total of the extents before it as its `rstart`, and array links count only on rank 0. The freeze is proved to give disjoint, contiguous segments that fill `[0, n)`.

  Gather and scatter walk the links in order and copy each segment in or out. Both stop with an error at a link kind they cannot handle. Gather is proved against a specification function `Gathered`, which leads to two results:
  - gather then scatter on rank 0 gives every array back;
  - gathering the values the segments already hold changes nothing.

  What MPI and the DA transfers deliver is passed in as parameters: `received` (the rank-0 broadcast, or the DA global-to-local result) and `produced` (the DA local-to-global result).
- **TaoEvaluation** (`tao_fg.dfy`) covers `src/tao/interface/taosolver_fg.c`, the evaluation entry points of the Tao solver.
  - The installed routines choose a route: a plan of user-routine calls, or `NotSet` (the WRONGSTATE error). `Run` executes a plan, bumping one counter per call that returns and stopping at the first call that fails.
  - Each `Compute*` method of the `Tao` class is proved to leave exactly the counters and the error that its route and `Run` prescribe. It also leaves the input vector's lock depth that `LockLeft` prescribes: restored on success, left pushed on failure.
  - User routines are opaque handles. Whether one fails on a call is the parameter `failing`.
  - The setters, the weight-triple copy and the `TaoIs*Defined` queries are modelled as well.

- **PackList** (`pack_list.dfy`) models the packer's linked list at the level of its `next` pointers. It shows that, when a new link's `next` is null, the sequence VecPacking uses is exactly the list the adds build; and that as written the source never assigns that pointer (see Findings).

`option.dfy` holds the shared `Option` type.

## Model

| member | source | states |
|---|---|---|
| SeqVector.FirstOutOfRange | src/vec/impls/seq/bvec2.c:257-268 | the position where the debug range check stops the kernel loop: every index before it lies in [0, n), and the index at it, if any, does not |
| SeqVector.InsertLastWins | src/vec/impls/seq/bvec2.c:256-262 | after an insert, each position holds the value of the last write aimed at it (later occurrences of a repeated index win); a position no index targets keeps its old value |
| SeqVector.AddAccumulates | src/vec/impls/seq/bvec2.c:263-270 | after an add, each position holds its old value plus the sum of every y[i] whose index is that position |
| SeqVector.ContributionUntouched | src/vec/impls/seq/bvec2.c:263-270 | in add mode a position no index targets receives nothing, so it is unchanged |
| SeqVector.ExpandAt | src/vec/impls/seq/bvec2.c:286-307 | blocked index i, offset j is the (i*bs + j)-th point write and targets bs*ix[i] + j: bs values of y are consumed per index |
| SeqVector.ExpandInRange | src/vec/impls/seq/bvec2.c:286-307 | blocks that pass the whole-block range test write only inside [0, n) |
| SeqVector.FirstBadBlock | src/vec/impls/seq/bvec2.c:288-301 | the position where the blocked loop stops: every earlier block lies in [0, n), and the block at it, if any, does not |
| SeqVector.BlockStartTestAdmitsOverrun | src/vec/impls/seq/bvec2.c:290 | the range test as written (block start only) accepts block 1 of size 2 in a vector of length 3, whose second entry is position 3, past the end |
| SeqVector.FirstBadStart | src/vec/impls/seq/bvec2.c:288-301 | the position where the blocked loop as written stops: every earlier block start lies in [0, n), and the start at it, if any, does not |
| SeqVector.StopsAgreeWhenDivisible | src/vec/impls/seq/bvec2.c:288-301 | when the block size divides n, the loop as written and the corrected loop stop at the same block. Their per-block write code is the same, so they then also report the same error and make the same writes; that consequence is not proved, because the writes of the loop as written are not modelled |
| SeqVector.BlockTestsAgreeWhenDivisible | src/vec/impls/seq/bvec2.c:290 | when the block size divides n, testing only the block start is equivalent to testing the whole block |
| SeqVector.WriteBlock | src/vec/impls/seq/bvec2.c:291-295 | the inner loop over one block leaves the first n entries equal to the point-wise kernel extended by that block's bs writes, and the entries past n unchanged |
| SeqVector.SeqVec.SetValues | src/vec/impls/seq/bvec2.c:249-272 | the result is out-of-range exactly when some index lies outside [0, n); the entries are the kernel applied to the indices before the first bad one (partial writes stay); nothing past n changes |
| SeqVector.SeqVec.SetValuesBlocked | src/vec/impls/seq/bvec2.c:276-310 | the result is out-of-range exactly when some block does not lie inside [0, n); the entries are the point-wise kernel applied to the expanded positions of the blocks before the first bad one, all of them in range |
| SeqVector.SeqVec.GetOwnershipRange | src/vec/impls/seq/bvec2.c:67-74 | the ownership range of a sequential vector is exactly [0, n) |
| SeqVector.SeqVec.Header | src/vec/impls/seq/bvec2.c:470-481 | the header of a new vector: local and global length n, block size 0, the given array, not owned, reference count 1 |
| SeqVector.SeqVec.CreateSeqWithArray | src/vec/impls/seq/bvec2.c:457-488 | a communicator unequal to the self communicator is an ArgWrong error and yields no vector; otherwise a fresh vector over the caller's array, which it does not own, with local and global length n |
| SeqVector.SeqVec.CreateSeq | src/vec/impls/seq/bvec2.c:512-525 | a fresh vector of length n over a fresh all-zero array that it owns, with the same communicator error as creation over an array |
| SeqVector.SeqVec.CreateSeqStub | src/vec/impls/seq/bvec2.c:527-530 | the creation of CreateSeq with length max(n, N): the same communicator error and no vector then; otherwise a fresh zeroed owned vector of that local and global length, block size 0, reference count 1 |
| SeqVector.SeqVec.Duplicate | src/vec/impls/seq/bvec2.c:543-562 | a fresh zeroed owned vector with the same communicator, length and block size, reference count 1 |
| SeqVector.SeqVec.Destroy | src/vec/impls/seq/bvec2.c:314-342 | drops one reference; storage is released exactly when the count reaches zero or below, and an array is freed exactly when it is released and owned (a borrowed array never is) |
| VecPacking.Packer.constructor | src/dm/da/utils/pack.c:50-66 | a new packer on the given rank: length 0, no links, zero DA and redundant counts, no global vector |
| VecPacking.Packer.AddArray | src/dm/da/utils/pack.c:301-327 | after the freeze, an error that changes nothing; otherwise the array link is appended at the tail, nredundant grows by one, and the length grows by m on rank 0 only; the packer invariant is kept |
| VecPacking.Packer.AddDA | src/dm/da/utils/pack.c:346-375 | after the freeze, an error that changes nothing; otherwise the DA link is appended at the tail, nDA grows by one, and the length grows by the DA's local size on every rank |
| VecPacking.LayOut | src/dm/da/utils/pack.c:417-421 | the offset walk keeps every link's kind and size and gives each link the running total of the extents before it |
| VecPacking.LaidAt | src/dm/da/utils/pack.c:417-421 | under the freeze layout, link k starts at the extent of links 0..k-1 |
| VecPacking.LaidFromStarts | src/dm/da/utils/pack.c:417-421 | conversely, offsets equal to the preceding extents are the freeze layout |
| VecPacking.Contiguous | src/dm/da/utils/pack.c:417-421 | under the freeze layout the next link starts exactly where this one ends |
| VecPacking.LaidIsDisjoint | src/dm/da/utils/pack.c:417-421 | under the freeze layout the segments are in list order, pairwise disjoint and inside [0, total extent) |
| VecPacking.LaidCovers | src/dm/da/utils/pack.c:417-421 | under the freeze layout every entry of [0, total extent) lies in the segment of some counted link, so the segments leave no gap |
| VecPacking.SameShapeSameExtent | src/dm/da/utils/pack.c:399-421 | reassigning offsets does not change the total extent or the link counts, so the length accumulated by the adds is the extent of the laid-out links |
| VecPacking.Packer.CreateGlobalVector | src/dm/da/utils/pack.c:399-424 | returns a fresh vector of the packer's length; the first call stores it and lays out the links (disjoint segments that fit the vector), and later calls change neither the stored vector nor the offsets |
| VecPacking.FirstUnsupported | src/dm/da/utils/pack.c:212-227 | the position where the walks stop: every earlier link is an array or a DA, and the link at it, if any, is of another kind |
| VecPacking.ScatterLink | src/dm/da/utils/pack.c:108-143 | scattering one link: on rank 0 an array gets its segment of the packed vector in its first n entries (the rest kept), other ranks get the broadcast values, and a DA's local vector gets the DA transfer result |
| VecPacking.GatherLink | src/dm/da/utils/pack.c:147-179 | gathering one link: its values overwrite exactly its segment when the link is counted on this rank (an array on a nonzero rank changes nothing) |
| VecPacking.GatherLinks | src/dm/da/utils/pack.c:258-278 | the gather walk stops at the first unsupported link and leaves the vector equal to the gathered specification of the links before it |
| VecPacking.ScatterLinks | src/dm/da/utils/pack.c:208-228 | the scatter walk fills the argument of each link before the first unsupported one and leaves the other arguments unchanged |
| VecPacking.Packer.Scatter | src/dm/da/utils/pack.c:201-231 | before the freeze, an error that touches no argument, whatever the arguments are; otherwise each link's argument, in list order, is filled from the packed vector up to the first unsupported link, which is an error |
| VecPacking.Packer.Gather | src/dm/da/utils/pack.c:251-281 | before the freeze, an error that leaves the vector alone, whatever the arguments are; otherwise the vector becomes the gathered specification of the links up to the first unsupported one, which is an error; the values gathered from a link (the definition `Sources`) are the first n entries of an array link's array, or the DA transfer's result for a DA link |
| VecPacking.GatheredPrefixSegment | src/dm/da/utils/pack.c:153-159 | after gathering links 0..i-1, the segment of each counted link among them holds exactly the values gathered from it (later copies do not disturb earlier segments) |
| VecPacking.GatheredSegment | src/dm/da/utils/pack.c:153-159 | after a full gather, each counted link's segment holds exactly its values |
| VecPacking.GatheredOutside | src/dm/da/utils/pack.c:153-159 | gather leaves every entry outside the counted segments unchanged |
| VecPacking.GatherOwnSegments | src/dm/da/utils/pack.c:115-159 | gathering the values that each segment already holds leaves the packed vector unchanged |
| VecPacking.ScatterThenGather | src/dm/da/utils/pack.c:108-176 | scatter then gather: gathering from the arguments a scatter walk filled, up to the same stopping link, gives back the packed vector, provided each DA transfer delivers the segment it was scattered from |
| VecPacking.GatherThenScatter | src/dm/da/utils/pack.c:115-159 | gather then scatter on rank 0: scattering the vector a gather filled returns every array link's array unchanged |
| VecPacking.IndicesDisjoint | src/dm/da/utils/pack.c:472-484 | on rank 0 the global index lists of two different array segments share no index |
| VecPacking.CollectIndices | src/dm/da/utils/pack.c:470-507 | the index walk gives one list per link up to the first unsupported one: the segment's own indices for an array on rank 0, the broadcast or DA-delivered list otherwise |
| VecPacking.Packer.GetGlobalIndices | src/dm/da/utils/pack.c:449-511 | creates the global vector if needed (so the layout is frozen), then returns the index lists up to the first unsupported link, which is an error |
| PackList.TailFrom | src/dm/da/utils/pack.c:322 | the tail walk ends at a node whose `next` is null, or stops at the first `next` it tests that was never assigned |
| PackList.SecondAddReadsUnset | src/dm/da/utils/pack.c:311-322 | as written, the first add leaves its link's `next` unassigned, the list is no null-terminated chain, and the second add's tail walk tests that unassigned pointer |
| PackList.ChainTail | src/dm/da/utils/pack.c:322 | on a null-terminated chain the tail walk from any node ends at the last node |
| PackList.AppendCorrectedKeepsChain | src/dm/da/utils/pack.c:318-325 | with the new link's `next` set to null, an add hangs the link on the tail and the list stays a null-terminated chain in allocation order |
| PackList.CorrectedAddsBuildChain | src/dm/da/utils/pack.c:301-375 | any number of corrected adds to a new packer give a chain of that many links in insertion order, which is the sequence VecPacking keeps |
| TaoEvaluation.Run | src/tao/interface/taosolver_fg.c:251-264 | running a plan calls its routines in order until one fails; the failed call is named, the calls before it all succeeded, and each of them added exactly one to the counters |
| TaoEvaluation.RunWithoutFailure | src/tao/interface/taosolver_fg.c:251-264 | a plan with no failing routine runs to the end, with counters independent of which other routines would fail |
| TaoEvaluation.FirstFailureCountsNothing | src/tao/interface/taosolver_fg.c:133-147 | a first routine that fails leaves the counters unchanged (the counter increment follows the error check) |
| TaoEvaluation.GradientDispatch | src/tao/interface/taosolver_fg.c:133-147 | a gradient evaluation raises WRONGSTATE exactly when neither a gradient nor a combined routine is set; it prefers the gradient routine (ngrads + 1) over the combined one (nfuncgrads + 1) and bumps nothing else |
| TaoEvaluation.ObjectiveDispatch | src/tao/interface/taosolver_fg.c:184-201 | an objective evaluation raises WRONGSTATE exactly when neither an objective nor a combined routine is set; it prefers the objective routine (nfuncs + 1) over the combined one (nfuncgrads + 1) and bumps nothing else |
| TaoEvaluation.ObjectiveAndGradientDispatch | src/tao/interface/taosolver_fg.c:239-264 | a joint evaluation raises WRONGSTATE exactly when there is no combined routine and the objective or the gradient routine is missing; the combined routine bumps only nfuncgrads, the separate routines bump nfuncs and ngrads once each, and the finite-difference path bumps nfuncgrads on top of its nested objective evaluation |
| TaoEvaluation.DefaultGradientPlan | src/tao/interface/taosolver_fg.c:241-243 | with the finite-difference gradient beside a combined routine, the joint evaluation is a nested objective evaluation followed by the gradient routine |
| TaoEvaluation.DefaultGradientPathSkipsCombined | src/tao/interface/taosolver_fg.c:241-243 | on that path, with an objective routine installed, the combined routine is never called |
| TaoEvaluation.SeparableDispatch | src/tao/interface/taosolver_fg.c:420-427 | a separable evaluation raises WRONGSTATE exactly when no separable routine is set, and otherwise bumps only nfuncs |
| TaoEvaluation.LockBalance | src/tao/interface/taosolver_fg.c:132-148 | an evaluation reports success exactly when it leaves the input's lock depth as it found it; a failing one leaves it deeper; a successful one made one call per step of its plan |
| TaoEvaluation.Tao.ComputeGradient | src/tao/interface/taosolver_fg.c:121-152 | counters and error as the gradient route prescribes, and the lock depth LockLeft gives (lock pushed before dispatch, popped only on success) |
| TaoEvaluation.Tao.ComputeObjective | src/tao/interface/taosolver_fg.c:174-205 | counters and error as the objective route prescribes, and the lock depth LockLeft gives |
| TaoEvaluation.Tao.ComputeObjectiveAndGradient | src/tao/interface/taosolver_fg.c:228-270 | counters and error as the joint route prescribes, and the lock depth LockLeft gives |
| TaoEvaluation.Tao.ObjectiveThenDefaultGradient | src/tao/interface/taosolver_fg.c:239-250 | the finite-difference branch: a nested objective evaluation under one more lock, then the gradient, then nfuncgrads + 1, as the joint route prescribes |
| TaoEvaluation.Tao.ComputeSeparableObjective | src/tao/interface/taosolver_fg.c:410-430 | counters and error as the separable route prescribes |
| TaoEvaluation.Tao.SetInitialVector | src/tao/interface/taosolver_fg.c:16-29 | the stored solution becomes the given vector (or none) and nothing else changes |
| TaoEvaluation.Tao.SetObjectiveRoutine | src/tao/interface/taosolver_fg.c:294-301 | only the objective routine and its context change |
| TaoEvaluation.Tao.SetGradientRoutine | src/tao/interface/taosolver_fg.c:454-461 | only the gradient routine and its context change |
| TaoEvaluation.Tao.SetObjectiveAndGradientRoutine | src/tao/interface/taosolver_fg.c:486-493 | only the combined routine and its context change |
| TaoEvaluation.Tao.SetSeparableObjectiveRoutine | src/tao/interface/taosolver_fg.c:325-334 | only the separable routine, its context and the separable objective vector change |
| TaoEvaluation.Tao.SetSeparableObjectiveWeights | src/tao/interface/taosolver_fg.c:357-389 | the weight vector is always replaced; with values, the count is n and three fresh arrays hold copies of the first n rows, columns and values; without, the count is 0 and the row and column arrays are cleared while the value array is kept; whatever the previous weight state, the weight invariant holds afterwards |
| TaoEvaluation.Tao.IsObjectiveDefined | src/tao/interface/taosolver_fg.c:511-518 | true exactly when an objective routine is set; with a combined routine this decides whether an objective evaluation can run |
| TaoEvaluation.Tao.IsGradientDefined | src/tao/interface/taosolver_fg.c:535-542 | true exactly when a gradient routine is set; with a combined routine this decides whether a gradient evaluation can run |
| TaoEvaluation.Tao.IsObjectiveAndGradientDefined | src/tao/interface/taosolver_fg.c:559-566 | true exactly when a combined routine is set, in which case a joint evaluation can run |

## Left out

- Floating point: scalars are exact `real`s. Norms, NaN tests, viewers, AMS publishing, logging and the stack macros are not modelled.
- The optimised build: the model always performs the range checks of the debug build. Without them, an out-of-range index writes outside the array, which has no meaning here.
- Memory: malloc, free and the header object are not modelled. `PetscHeaderCreate`, `PetscNew` and `MapCreateMPI` are not part of this model. A new vector is assumed to have reference count 1. A new link's `rstart` is assumed to be 0 until the freeze assigns it. The source never assigns a new link's `next` (src/dm/da/utils/pack.c:311-316, 357-363); VecPacking assumes it is null, and PackList shows what happens otherwise. The extra element `VecCreateSeq` allocates beyond n is not represented.
- SeqVector.SeqVec.Duplicate: the local-to-global mappings and the option and function lists it shares or duplicates are not modelled.
- Communicators: the comparison with the self communicator is the parameter `comm`. The packer's rank is a constructor parameter.
- MPI_Bcast, the DA global-to-local and local-to-global transfers, and the PF identity fill are not modelled. Their results are the parameters `received` and `produced`. `GetGlobalIndices` on rank 0 assumes that global index i sits at position i, because rank 0's part of the packed vector starts at global index 0.
- SeqVector.SeqVec.SetValuesBlocked: C `int` has fixed width and the model's integers do not. For a large `ix[i]` the source's product `bs*ix[i]` wraps around; a wrapped start can pass the range check, while the model reports an out-of-range error. Integer overflow of indices and lengths is not modelled anywhere in the project.
- TaoEvaluation.Tao.ComputeGradient, TaoEvaluation.Tao.ComputeObjective, TaoEvaluation.Tao.ComputeObjectiveAndGradient, TaoEvaluation.Tao.ComputeSeparableObjective: the counters are unbounded naturals, whereas the source's `PetscInt` counters wrap around.
- VecPacking.ScatterLinks, VecPacking.Packer.Scatter: the arguments must be pairwise distinct arrays, and none may be the packed vector. The source accepts the same array for two links, and then the later link's copy wins. Aliased arguments are not modelled.
- VecPacking.Packer.CreateGlobalVector: the packer's global size N and global offset, taken from the MPI vector, are not modelled.
- `VecPackDestroy` is not modelled: it only releases memory.
- The linked list of links is a sequence. Appending at the tail by walking the list is `links + [link]`.
- VecPacking.Packer.Gather: array arguments are taken as values, and the copy reads the first n entries. A DA link's local vector is represented only by what its transfer produces.
- There is no operation that adds a link of the third kind, so the unsupported-link error is modelled but cannot be reached from a packer built by the add operations.
- TaoEvaluation.Tao.ComputeGradient, TaoEvaluation.Tao.ComputeObjectiveAndGradient: `TaoTestGradient`, which runs after a successful evaluation (src/tao/interface/taosolver_fg.c:150 and 268), is not modelled (options parsing, printing and norm comparisons).
- TaoEvaluation.Tao.ObjectiveThenDefaultGradient, TaoEvaluation.Tao.ComputeGradient, TaoEvaluation.Tao.ComputeObjectiveAndGradient: the body of the finite-difference gradient routine `TaoDefaultComputeGradient` is not part of this model. Wherever it is the installed gradient routine it is one call of the gradient slot: in the finite-difference branch, in `ComputeGradient`, and in the separate-routine path of `ComputeObjectiveAndGradient`. The objective evaluations it makes internally are therefore not counted.
- The objective and gradient values and the vectors the routines fill are not modelled. Routines, contexts and vectors are opaque handles, and a user routine's failure is the parameter `failing`.
- TaoEvaluation.Tao.ComputeSeparableObjective: the source does not lock its input vector, so the model has no lock for it. The input and output vectors are not parameters.
- TaoEvaluation.Tao.SetSeparableObjectiveWeights: the model requires non-null row and column arrays whenever values are given, even when n is 0 and the source never reads them. Freeing the previous arrays and reference counting the weight vector are not modelled.
- Vector reference counting in the Tao setters (`PetscObjectReference`, `VecDestroy` of the replaced vector) is not modelled.

## Findings

| source | as written | input that shows it | evidently intended | confidence | as-written member | corrected member |
|---|---|---|---|---|---|---|
| src/vec/impls/seq/bvec2.c:290 | the debug range check of the blocked kernel tests only the block start `bs*ix[i]` against [0, n) (the same at line 301) | n = 3, bs = 2, ix = [1]: the start 2 passes, and the block writes positions 2 and 3, past the end of the array | the whole block `[bs*ix[i], bs*ix[i] + bs)` lies in [0, n); the two tests agree whenever bs divides n | not executed; low, since blocked vectors normally have a length divisible by bs | SeqVector.BlockStartTestAdmitsOverrun | SeqVector.SeqVec.SetValuesBlocked |
| src/dm/da/utils/pack.c:311 | a new link's `next` field is never assigned (the same at line 357); the tail walk at line 322 and the scatter, gather and index walks then test it | two adds to a new packer: the second add's tail walk tests the first link's unassigned `next` | `mine->next = PETSC_NULL`, so every add appends at the tail and every walk ends at the last link | not executed; medium, since it holds only if PetscNew does not zero the memory it returns, and PetscNew is not part of this model | PackList.SecondAddReadsUnset | PackList.AppendCorrectedKeepsChain |
