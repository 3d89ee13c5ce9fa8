# A verified model of a tensor computation graph, its optimizer and its memory planner

This project models the core of a small deep-learning graph runtime:

- the graph object (`GraphObj`) and its operations:
  - adding tensors and connecting operators;
  - the repeated-pass topological sort;
  - the two Transpose rewrites of `optimize`;
  - lookup by FUID and the well-formedness check;
  - the loop of shape inference;
  - memory planning and binding in `dataMalloc`;
- the offset allocator (`Allocator`): first-fit allocation over an ordered free list, freeing with coalescing, and materializing the arena;
- shape inference of MatMul, with `transA`/`transB` and batch broadcasting.

Tensors and operators live in two id-keyed record stores, `tensorStore` and `opStore`. This stands in for the shared and weak pointers of the C++ code. The graph's `tensors` and `ops` lists name the live records. A weak pointer "still locks" exactly when the operator it names is in `ops`. Producer, consumer, predecessor and successor links are fields of the records.

Modules:

- `Common`: options, results, and the `std::vector` idioms:
  - erase-first-by-value;
  - replace-by-value;
  - duplicate-freedom.
- `Shapes`: shapes, Transpose permutations, the last-two-axes swap, broadcasting.
- `MatMul`: `MatmulObj::inferShape`.
- `Allocation`: the free list, the class `Allocator`, and the plans `dataMalloc` makes with it.
- `Graphs`: tensor and operator records, `addOperatorAndConnect` on the stores, and the graph invariant.
- `TopoSort`: `topo_sort`.
- `Links`: the producer, consumer, predecessor and successor links agreeing with the data flow, and `addOperatorAndConnect` keeping them so.
- `Lookup`: `getTensor` and `checkValid`.
- `ShapeInference`: the loop of `shape_infer`, with the inference of operator kinds other than MatMul given as a parameter.
- `Rewrites`: the two rules of `optimize`, the invariant they keep, and what shape inference computes before and after.
- `RewriteValidity`: when a rewrite keeps the links and `checkValid`, and graphs where the rewrites as written break them.
- `Optimizer`: the rescanning driver of `optimize`, the replay of the rewrites it performs, and what that replay keeps of shape inference.
- `GraphObject`: the class `Graph`, whose methods change its stores, lists, `sorted` flag, blob bindings and allocator in place.

Widths: `size_t` counters wrap modulo 2^64 (`Allocation.Wrap`). `getAlignedSize` wraps in the same way, so an aligned size of 0 stays 0.

## Model

| member | source | states |
|---|---|---|
| Common.RemoveFirst | src/core/graph.cc:185-187 | erasing by value: an absent value changes nothing, otherwise exactly one element goes and all the others stay |
| Common.RemoveFirstMultiset | src/core/graph.cc:185-187 | erasing takes out exactly one copy of the value |
| Common.RemoveFirstDistinct | src/core/graph.cc:185-187 | on a duplicate-free list, erasing the first occurrence removes the value completely and keeps the list duplicate-free |
| Common.RemoveFirstElems | src/core/graph.cc:185-187 | on a duplicate-free list, erasing leaves a duplicate-free list holding exactly the other values |
| Common.RemoveTwoElems | src/core/graph.cc:186-187 | erasing two values from a duplicate-free list leaves a duplicate-free list holding exactly the other values |
| Common.Without | src/core/graph.cc:179-187 | filtering keeps exactly the elements not in the set and never lengthens the list |
| Common.ReplaceAll | src/core/graph.cc:144-156 | every position holding the old tensor now holds the new one, and the other positions are kept |
| Common.ReplaceAllMembers | src/core/graph.cc:141-159 | after the replacement a value is present exactly when it was present and is not the old tensor, or it is the new tensor and the old one was present |
| Shapes.SwapLast | src/operators/matmul.cc:39-44 | the swap keeps the batch dimensions and exchanges the last two |
| Shapes.SwapLastInvolution | src/operators/matmul.cc:39-44 | swapping twice gives the shape back |
| Shapes.PermuteShape | src/core/graph.cc:122-126 | dimension `i` of a transposed shape is input dimension `perm[i]` |
| Shapes.TrailingSwapIsSwapLast | src/core/graph.cc:201-218 | a permutation that passes the fusion check changes every shape exactly as a MatMul flag does |
| Shapes.CancelsRestoresShape | src/core/graph.cc:118-129 | two Transposes whose permutations are inverse restore the input shape |
| Shapes.EqualPermsMayNotCancel | src/core/graph.cc:126 | equal permutations need not cancel: `[1, 2, 0]` twice maps `[2, 3, 4]` to `[4, 2, 3]` |
| Shapes.BroadcastDim | src/operators/matmul.cc:51 | two agreeing dimensions broadcast to the one that is not 1 |
| Shapes.Broadcast | src/operators/matmul.cc:51 | a successful broadcast has the rank of the longer shape |
| Shapes.BroadcastCorrect | src/operators/matmul.cc:51 | broadcasting succeeds exactly on compatible shapes, and each right-aligned result dimension is the broadcast of the operands' dimensions |
| Shapes.BroadcastSymmetric | src/operators/matmul.cc:51 | broadcasting does not depend on the order of the operands |
| MatMul.Operand | src/operators/matmul.cc:39-44 | the operand as the product sees it is swapped exactly when its flag is set |
| MatMul.InferShape | src/operators/matmul.cc:24-70 | a successful inference gives one output of rank at least 3 |
| MatMul.InferShapeSpec | src/operators/matmul.cc:24-70 | inference fails on incompatible batches, then on unequal inner dimensions, and succeeds exactly otherwise; the output has rank max(rankA, rankB, 3), ends in `[m, n]` and broadcasts the batch dimensions |
| MatMul.RankTwoOperands | src/operators/matmul.cc:47-67 | two matrices give `[1, m, n]` |
| MatMul.ToggleTransA | src/operators/matmul.cc:39-41 | flipping `transA` is the same as swapping the last two axes of input A |
| MatMul.ToggleTransB | src/operators/matmul.cc:42-44 | flipping `transB` is the same as swapping the last two axes of input B |
| Allocation.Wrap | src/core/allocator.cc:48-51 | a `size_t` sum or difference is the exact value reduced modulo 2^64 |
| Allocation.AlignedSize | src/core/allocator.cc:105-108 | the aligned size is a `size_t`, a multiple of 8, and 0 for size 0 |
| Allocation.AlignedSizeIsLeastMultiple | src/core/allocator.cc:105-108 | for every size that does not overflow, the aligned size is the least multiple of 8 at or above it |
| Allocation.FirstFit | src/core/allocator.cc:35-38 | the first block in address order that is long enough, or none exactly when no block fits |
| Allocation.TakeBlockCoalesced | src/core/allocator.cc:42-46 | the split as written keeps the free list coalesced |
| Allocation.TakeBlockIsCarve | src/core/allocator.cc:42-46 | for a positive size the split as written equals the corrected split |
| Allocation.TakeBlockZeroDropsBlock | src/core/allocator.cc:42-46 | with an aligned size of 0, the split as written removes the whole block, and its bytes stop being free |
| Allocation.CarveBlockCarves | src/core/allocator.cc:42-46 | the corrected split frees exactly the block's bytes minus the allocated range and keeps the list coalesced |
| Allocation.CarveBlockByte | src/core/allocator.cc:42-46 | per byte: free after carving exactly when free before and outside the allocated range |
| Allocation.KeyBelow | src/core/allocator.cc:75-76 | the last block that starts below the address |
| Allocation.KeyAtOrAbove | src/core/allocator.cc:72 | the first block that starts at or above the address |
| Allocation.SwallowsNext | src/core/allocator.cc:85-88 | `free` merges with the next block exactly when that block starts where the freed range ends |
| Allocation.CoalesceCoalesced | src/core/allocator.cc:61-93 | freeing a range that overlaps no block keeps the free list coalesced |
| Allocation.CoalesceEmptyRange | src/core/allocator.cc:61-93 | freeing an empty range changes nothing when `addr` starts or ends a free block; otherwise it stores an empty block at `addr` and the free list is no longer coalesced |
| Allocation.CoalesceFreesRange | src/core/allocator.cc:61-93 | freeing adds exactly the range's bytes to the free bytes |
| Allocation.FreeUndoesCarve | src/core/allocator.cc:26-93 | freeing what the corrected split allocated restores the free list exactly |
| Allocation.CarvedRangeIsolated | src/core/allocator.cc:35-53 | an allocated range overlaps no free block, and no free block ends at its start |
| Allocation.Allocator.constructor | src/core/allocator.cc:6-16 | nothing used, peak 0, no free block, no arena |
| Allocation.Allocator.FindFit | src/core/allocator.cc:35-38 | the search loop returns the first fit |
| Allocation.Allocator.Alloc | src/core/allocator.cc:26-59 | with no fit: offset 0 and nothing changes; with a fit: its address, the block split as written, `used` grown with wrap-around, `peak` its running maximum; coalescing is kept |
| Allocation.Allocator.Free | src/core/allocator.cc:61-93 | `used` shrinks with wrap-around, the range merges with touching neighbours, and `peak` is kept |
| Allocation.Allocator.LowerBound | src/core/allocator.cc:72 | the block chosen is `lower_bound(addr)`: the least start at or above `addr`, or none when every block starts below it |
| Allocation.Allocator.BlockBefore | src/core/allocator.cc:75-76 | the block chosen is `std::prev(lower_bound(addr))`: the greatest start below `addr`, or none when no block starts below it |
| Allocation.Allocator.GetPtr | src/core/allocator.cc:95-103 | the first call materializes an arena of `peak` bytes; later calls return the same arena; the counters are kept |
| Allocation.Allocator.AllocOrExtend | src/core/allocator.cc:26-59 | corrected allocation: a fit is carved; with no fit the request goes at the old `peak`, which grows by the aligned size |
| Allocation.SumAlignedAligned | src/core/allocator.cc:105-108 | a sum of aligned sizes is aligned |
| Allocation.PlanAsWritten | src/core/graph.cc:318-321 | the planning loop as written on an untouched allocator gives offset 0 for every tensor and leaves the allocator untouched |
| Allocation.ZeroOffsetsCollide | src/core/graph.cc:318-327 | all-zero offsets place two non-empty tensors on the same bytes |
| Allocation.WrappedSum | src/core/allocator.cc:48-51 | the arena end after a sequence of requests is below 2^64 and equals the plain sum when that fits |
| Allocation.RunningOffsetAt | src/core/graph.cc:318-321 | when the total fits, request `i` starts at the sum of the aligned sizes before it |
| Allocation.RunningOffsetsLayout | src/core/graph.cc:318-327 | when the total fits, the corrected plan's offsets are aligned, pairwise disjoint and within the arena |
| Allocation.RunningOffsetsOrdered | src/core/graph.cc:318-321 | an earlier tensor's range ends before a later one starts |
| Allocation.PlanDisjoint | src/core/graph.cc:318-321 | the corrected planning loop gives the running offsets, and `peak` and `used` end at the wrapped total |
| Graphs.Bytes | src/core/graph.cc:320 | a tensor's byte size is a `size_t` congruent to elements times element size modulo 2^64, and equal to that product when it fits |
| Graphs.ConnectKeepsSymmetry | src/core/graph.cc:12-33 | connecting an operator keeps predecessor and successor links mutually consistent |
| Graphs.ConnectLinks | src/core/graph.cc:12-33 | the new operator follows each live producer of its inputs, precedes each live consumer of its outputs, produces its outputs and consumes its inputs |
| Graphs.ConnectKeepsWellFormed | src/core/graph.cc:12-33 | connecting a fresh operator of the right arity keeps the graph invariant |
| Graphs.ConnectKeepsClosed | src/core/graph.cc:12-33 | connecting keeps every id a record mentions backed by a record |
| Graphs.ConnectInputs | src/core/graph.cc:15-23 | the input loop reaches the stores the definition of connecting describes for the inputs |
| Graphs.ConnectInput | src/core/graph.cc:16-22 | one input: the operator becomes a target, and it is linked after the input's live producer |
| Graphs.ConnectOutputs | src/core/graph.cc:24-32 | the output loop completes the connection the definition describes |
| Graphs.ConnectOutput | src/core/graph.cc:25-31 | one output: the operator becomes its source, and it is linked before each live consumer |
| Graphs.LinkTargets | src/core/graph.cc:27-30 | the consumer loop links every live consumer in both directions |
| Graphs.Connect | src/core/graph.cc:12-33 | the stores after `addOperatorAndConnect` are the connected tensor and operator stores |
| TopoSort.NoOrderWhenStuck | src/core/graph.cc:80-82 | when a pass places nothing, no order of `ops` puts producers first |
| TopoSort.Pass | src/core/graph.cc:66-79 | a pass only appends to what was placed, keeps it duplicate-free, drawn from `ops` and producers-first, reports a change exactly when it placed something, and when it places nothing every unplaced operator still waits for an unplaced producer |
| TopoSort.Sort | src/core/graph.cc:60-85 | on success a duplicate-free permutation of `ops` with producers first; on failure no such order exists |
| Lookup.GetTensor | src/core/graph.cc:280-287 | the result carries the FUID, and none is found exactly when no listed tensor carries it |
| Lookup.GetTensorFirst | src/core/graph.cc:280-287 | the earliest tensor carrying the FUID is the one found |
| Lookup.GetTensorOwnFuid | src/core/graph.cc:379-385 | with distinct FUIDs, every listed tensor is found by its own FUID |
| Lookup.CheckValidLookup | src/core/graph.cc:353-387 | a graph that passes the check has a duplicate-free tensor list, and every tensor is found by its FUID |
| Lookup.CheckValid | src/core/graph.cc:353-387 | a graph that passes the check has a duplicate-free tensor list and every live operator's successors are live |
| Lookup.ConnectKeepsValid | src/core/graph.cc:12-33 | connecting an operator that reads and writes tensors of the graph keeps a graph that passes the check passing it |
| Lookup.IsolatedTensorInvalid | src/core/graph.cc:355-356 | a tensor with no consumer and no live producer fails the check |
| Links.LinkedSymmetric | src/core/graph.cc:12-33 | links that follow the data flow are symmetric |
| Links.ConnectKeepsLinked | src/core/graph.cc:12-33 | connecting an operator whose outputs have no live producer keeps every link following the data flow |
| Links.ConnectOpsLinked | src/core/graph.cc:15-32 | after connecting, every live operator is a target of its inputs and the source of its outputs |
| Links.ConnectTensorsLinked | src/core/graph.cc:15-32 | after connecting, every live target or source of a tensor reads or writes it |
| Links.ConnectEdge | src/core/graph.cc:18-30 | after connecting, one live operator succeeds another exactly when the other writes a tensor it reads |
| ShapeInference.ShapesOf | src/core/graph.cc:291 | one shape per input tensor |
| ShapeInference.InferOp | src/core/graph.cc:291-292 | a successful MatMul inference answers one shape from two inputs; other kinds answer what the given inference does |
| ShapeInference.OnlyShapesChangedTrans | src/core/graph.cc:289-306 | changing only shapes, twice, changes only shapes |
| ShapeInference.WriteShape | src/core/graph.cc:297-303 | one output: only shapes change; a lookup that finds nothing is an error naming the FUID |
| ShapeInference.WriteShapes | src/core/graph.cc:296-304 | writing the outputs changes only shapes; the only failure is a lookup miss |
| ShapeInference.InferStep | src/core/graph.cc:291-304 | one operator changes only shapes, and fails with `InferenceFailed` only when its inference answers nothing |
| ShapeInference.InferOps | src/core/graph.cc:289-306 | inference over the list changes only shapes; an `InferenceFailed` names an operator already reached |
| ShapeInference.WriteShapesErrSticks | src/core/graph.cc:296-304 | once writing fails, later outputs keep the failure |
| ShapeInference.InferOpsErrSticks | src/core/graph.cc:290-293 | once inference fails, later operators keep the failure |
| ShapeInference.InferOpsStable | src/core/graph.cc:289-306 | when every operator already infers its outputs' current shapes, inference succeeds and changes nothing |
| ShapeInference.WriteShapesUnchanged | src/core/graph.cc:301 | writing the shapes the outputs already have changes nothing |
| ShapeInference.SingleOutputInferred | src/core/graph.cc:289-306 | a one-output operator that infers `s` gives its output, found by FUID, the shape `s`, and nothing else changes |
| ShapeInference.WriteOutputs | src/core/graph.cc:296-304 | the inner loop computes the ordered writes |
| ShapeInference.WriteOutput | src/core/graph.cc:297-303 | one iteration of the inner loop extends the ordered writes by one output |
| ShapeInference.ShapeInfer | src/core/graph.cc:289-306 | the outer loop computes inference over the whole operator list |
| ShapeInference.InferOne | src/core/graph.cc:291-304 | one iteration of the outer loop extends the inference by one operator |
| ShapeInference.WellFormedInferable | src/core/graph.cc:289-306 | a well-formed graph's operators have records for all their tensors |
| ShapeInference.ShapesKeepWellFormed | src/core/graph.cc:289-306 | changing shapes keeps the graph invariant |
| Rewrites.RewireA | src/core/graph.cc:134-177 | an operator record after elimination keeps its kind and outputs |
| Rewrites.RetargetA | src/core/graph.cc:144-158 | a tensor record after elimination keeps its shape |
| Rewrites.RewiredA | src/core/graph.cc:134-177 | every operator record is rewired and none appears or disappears |
| Rewrites.RetargetedA | src/core/graph.cc:144-158 | every tensor record is retargeted and none appears or disappears |
| Rewrites.Fuse | src/core/graph.cc:244-260 | intended fusion: `t` becomes `x` in every slot, `transA` flips exactly when input 0 was `t`, and `transB` exactly when input 1 was |
| Rewrites.FuseAsWrittenAgrees | src/core/graph.cc:244-260 | the loop as written agrees with the intended fusion unless both inputs are the Transpose's output |
| Rewrites.FuseAsWrittenDoubleToggle | src/core/graph.cc:250-253 | with both inputs the Transpose's output, the loop flips `transA` once and `transB` twice, where `transB` should flip once |
| Rewrites.FuseAsWrittenBreaksShape | src/core/graph.cc:250-253 | a concrete MatMul whose inferred shape the as-written fusion turns into a failure while the intended one keeps it |
| Rewrites.FuseKeepsShape | src/core/graph.cc:195-260 | the intended fusion infers the MatMul's old output shape from the Transpose's input |
| Rewrites.RewireB | src/core/graph.cc:229-260 | after a fusion every record keeps its outputs, and records other than the MatMul keep kind and inputs |
| Rewrites.RewiredB | src/core/graph.cc:229-260 | every operator record is rewired for the fusion and none appears or disappears |
| Rewrites.RetargetedB | src/core/graph.cc:256-258 | only the Transpose's input changes: it trades the Transpose for the MatMul as a target |
| Rewrites.ClosedAfterRewiring | src/core/graph.cc:97-278 | records that only link to existing records leave the stores closed |
| Rewrites.RewireAClosed | src/core/graph.cc:134-177 | an elimination-rewired record links only to existing records |
| Rewrites.RewireBClosed | src/core/graph.cc:229-260 | a fusion-rewired record links only to existing records |
| Rewrites.RewiredAClosed | src/core/graph.cc:119-191 | elimination keeps the stores closed |
| Rewrites.RewiredBClosed | src/core/graph.cc:195-269 | fusion keeps the stores closed |
| Rewrites.PairArity | src/core/graph.cc:119-199 | a pair that applies consists of a one-in, one-out Transpose and a one-output successor, a MatMul with two inputs |
| Rewrites.GoodAfter | src/core/graph.cc:97-278 | shrinking the lists over closed stores keeps the optimizer's invariant |
| Rewrites.EliminateKeepsGood | src/core/graph.cc:119-191 | elimination keeps the invariant |
| Rewrites.FuseIntoKeepsGood | src/core/graph.cc:195-269 | fusion keeps the invariant |
| Rewrites.FuseStored | src/core/graph.cc:244-260 | the fused MatMul has two inputs, each with a record |
| Rewrites.RewriteKeepsGood | src/core/graph.cc:117-269 | every rewrite keeps the invariant |
| Rewrites.RewriteShrinks | src/core/graph.cc:185-187 | a rewrite takes exactly the rewritten operators out of `ops`, in order, so the list gets shorter |
| Rewrites.RewriteOps | src/core/graph.cc:185-187 | elimination erases both Transposes from `ops`; fusion erases the Transpose |
| Rewrites.RemoveBoth | src/core/graph.cc:185-187 | erasing one or two distinct operators is filtering them out |
| Rewrites.ReplaceSameShape | src/core/graph.cc:144-156 | reading a tensor of the same shape instead gives the same input shapes |
| Rewrites.ShapesOfKept | src/core/graph.cc:117-269 | input shapes depend only on the records' shapes |
| Rewrites.RewireAInference | src/core/graph.cc:134-177 | a rewired consumer infers what it did |
| Rewrites.EliminationKeepsInference | src/core/graph.cc:119-191 | elimination keeps every shape, and every remaining operator infers what it did |
| Rewrites.FusedInference | src/core/graph.cc:244-260 | the fused MatMul infers what the original did |
| Rewrites.MatMulSameInference | src/operators/matmul.cc:24-70 | two MatMuls infer alike from operands that inference maps alike |
| Rewrites.FusionKeepsInference | src/core/graph.cc:195-269 | fusion keeps every shape, and every remaining operator infers what it did |
| Rewrites.RewriteKeepsInference | src/core/graph.cc:117-269 | every rewrite keeps shapes and what shape inference computes |
| Rewrites.EliminateRewiresReader | src/core/graph.cc:134-160 | elimination hands each live successor of the second Transpose its old record reading the first Transpose's input in place of the second's output, and keeps every shape |
| Rewrites.EliminateRewiresInference | src/core/graph.cc:134-160 | a rewired successor infers, after elimination, what its old record infers on the old shapes of its new inputs |
| Rewrites.EqualPermsBreakInference | src/core/graph.cc:119-160 | with two `[1, 2, 0]` Transposes the trigger as written fires though the corrected one does not, and the rewired MatMul that inferred `[4, 2, 5]` fails to infer |
| Rewrites.EqualPermTriggers | src/core/graph.cc:126 | equal permutations pass the trigger as written and fail the corrected one |
| Rewrites.EqualPermInfersBefore | src/core/graph.cc:289-292 | before the rewrite the MatMul infers `[4, 2, 5]` |
| Rewrites.EqualPermFailsAfter | src/core/graph.cc:134-160 | after the elimination as written the MatMul's inference fails |
| Rewrites.BatchedProduct | src/operators/matmul.cc:24-70 | a `[4, 2, 3]` batch times a `[3, 5]` matrix is `[4, 2, 5]` |
| Rewrites.MismatchedProduct | src/operators/matmul.cc:24-70 | a `[2, 3, 4]` batch cannot multiply a `[3, 5]` matrix |
| RewriteValidity.ElimSiteHolds | src/core/graph.cc:119-177 | at a safe elimination of a linked, valid graph the two live Transposes pass three distinct tensors of the graph `x` to `t0` to `t`, the second has live successors and each reads `t`, and every other live operator touches the pair only by reading `t` or writing `x` |
| RewriteValidity.ElimAfterHolds | src/core/graph.cc:134-187 | the graph after elimination has the retargeted and rewired stores and lists without exactly the removed tensors and operators |
| RewriteValidity.ElimFeeds | src/core/graph.cc:162-176 | after a safe elimination one operator feeds another exactly when it did, or it fed the first Transpose and the other read the second's output |
| RewriteValidity.EliminateKeepsValid | src/core/graph.cc:119-191 | a safe elimination of a linked graph that passes `checkValid` leaves it linked and passing |
| RewriteValidity.FuseSiteHolds | src/core/graph.cc:195-241 | at a safe fusion of a linked, valid graph the live Transpose passes `x` to `t0`, two distinct tensors of the graph, only the MatMul reads `t0`, and every other live operator touches the Transpose only by writing `x` |
| RewriteValidity.FuseAfterHolds | src/core/graph.cc:229-265 | the graph after fusion has the retargeted and rewired stores and lists without exactly the Transpose and its output |
| RewriteValidity.FuseFeeds | src/core/graph.cc:229-241 | after a safe fusion one operator feeds another exactly when it did, or it fed the Transpose and the other is the MatMul |
| RewriteValidity.FuseIntoKeepsValid | src/core/graph.cc:195-269 | a safe fusion of a linked graph that passes `checkValid` leaves it linked and passing, whatever the MatMul's new flags |
| RewriteValidity.RewriteKeepsValid | src/core/graph.cc:117-269 | every safe rewrite of a linked graph that passes `checkValid` leaves it linked and passing |
| RewriteValidity.EliminateStrandsReader | src/core/graph.cc:179-187 | elimination as written keeps live any other reader of the first Transpose's output, reading a tensor that left `tensors`, so the check fails |
| RewriteValidity.FuseStrandsReader | src/core/graph.cc:262-265 | fusion as written keeps live any other reader of the Transpose's output, reading a tensor that left `tensors`, so the check fails |
| RewriteValidity.EliminateOrphansOutput | src/core/graph.cc:141-187 | when nobody reads the second Transpose's output, elimination as written keeps it with no consumer and no live producer, so the check fails |
| RewriteValidity.EliminateBreaksValid | src/core/graph.cc:119-187 | a concrete graph that passes the check and whose pair triggers rule A fails the check after the elimination as written |
| RewriteValidity.FuseBreaksValid | src/core/graph.cc:195-265 | a concrete graph that passes the check and whose pair triggers rule B fails the check after the fusion as written |
| RewriteValidity.EliminateOrphans | src/core/graph.cc:119-187 | a concrete graph that passes the check, whose second Transpose's output is unread, fails the check after the elimination as written |
| Optimizer.FindRewrite | src/core/graph.cc:103-115 | the scan returns the first Transpose of `ops`, in order, with a successor to rewrite safely, or reports that no pair can be rewritten |
| Optimizer.ReplaySnoc | src/core/graph.cc:97-103 | rewriting the graph a replay reaches extends the replay by that step |
| Optimizer.InferredTranspose | src/core/graph.cc:118-126 | in a graph whose shapes are inferred, a live Transpose's output is its input permuted by its `perm` |
| Optimizer.InferredPairShapes | src/core/graph.cc:118-126 | in a linked graph whose shapes are inferred, the shapes around an applicable pair are those the rewrite's correctness needs |
| Optimizer.RewriteKeepsInferred | src/core/graph.cc:134-278 | one rewrite of a graph whose shapes are inferred leaves them inferred |
| Optimizer.ReplayKeepsInference | src/core/graph.cc:97-278 | any replay of rewrites on a linked, valid, inferred graph keeps it so, keeps every tensor's shape, and leaves every remaining operator with the same outputs and the same inferred shapes |
| Optimizer.ReplayKeepsAllInference | src/core/graph.cc:97-278 | the same, for every inference of the kinds other than Transpose |
| Optimizer.Optimize | src/core/graph.cc:97-278 | the result is the input rewritten, in order, by the returned steps, each rewritable when its turn comes (`Replay`); the invariant is kept, no pair is left, `ops` is the old list with the rewritten operators filtered out, a linked graph that passes `checkValid` still does, and when its shapes are inferred every shape and every remaining operator's outputs and inference are kept |
| GraphObject.Graph.constructor | src/core/allocator.cc:6-16 | an empty, unsorted graph whose allocator is freshly constructed: nothing used, peak 0, no free block, no arena |
| GraphObject.Graph.AddTensor | src/core/graph.cc:330-332 | a fresh tensor with no producer and no consumer joins the end of the list and the store, and nothing else changes |
| GraphObject.Graph.AddOperatorAndConnect | src/core/graph.cc:12-33 | the operator joins `ops`, the graph is unsorted, the stores are connected, and the invariant is kept; with tensors of the graph, `checkValid` stays true, and so do the links when no output already has a live producer |
| GraphObject.Graph.TopoSort | src/core/graph.cc:56-86 | a sorted graph answers true unchanged; otherwise `ops` becomes a topological order and the graph is marked sorted, or nothing changes and no order exists |
| GraphObject.Graph.RemoveTensor | src/core/graph.cc:179-183 | the tensor leaves the list and nothing else changes |
| GraphObject.Graph.RemoveOperator | src/core/graph.cc:185-187 | the operator leaves the list and nothing else changes |
| GraphObject.Graph.Optimize | src/core/graph.cc:88-278 | the new stores and lists are the old graph rewritten by the returned steps (`Replay`); no pair is left to rewrite, `ops` only loses operators, `sorted` and the bindings are kept, a linked graph that passed `checkValid` still does, and when its shapes were inferred every shape and every remaining operator's inference are kept |
| GraphObject.Graph.ShapeInfer | src/core/graph.cc:289-306 | on success the stores become inference's result, changing only shapes; on failure the error is reported and nothing changes |
| GraphObject.Graph.DataMalloc | src/core/graph.cc:308-328 | the graph is sorted first, and an unsortable graph fails; a materialized arena refuses a plan; otherwise every listed tensor is bound to the arena base plus its offset in the corrected plan (the sum of the aligned sizes before it), the arena is materialized with the wrapped total, and other bindings are kept |
| GraphObject.BindBlobs | src/core/graph.cc:322-326 | the binding loop binds the `i`-th tensor to `base + offsets[i]` and keeps the other bindings |
| GraphObject.ConnectKeepsChecks | src/core/graph.cc:12-33 | connecting a fresh operator that reads and writes tensors of the graph keeps `checkValid`, and keeps the links when its outputs have no live producer |
| GraphObject.ConnectGraph | src/core/graph.cc:12-33 | the stores after the connection are the connected stores; they keep the graph invariant, keep `checkValid` when the operator's tensors are in the list, and keep the links when, besides, its outputs have no live producer |
| GraphObject.ShrinkListsKeepsWellFormed | src/core/graph.cc:179-187 | dropping list entries keeps the graph invariant |
| GraphObject.EraseTensorKeepsWellFormed | src/core/graph.cc:179-183 | erasing a tensor keeps the invariant and removes every occurrence |
| GraphObject.EraseOperatorKeepsWellFormed | src/core/graph.cc:185-187 | erasing an operator keeps the invariant and removes every occurrence |
| GraphObject.SizesOf | src/core/graph.cc:320 | one `size_t` request per listed tensor |

## Left out

- Printing is not modelled: `allocator.info()`, the messages of `alloc` and `getPtr`, and the debug output of `optimize`.
- The runtime is reduced to an address:
  - `runtime->alloc` is the `fromRuntime` parameter of `GetPtr` and `DataMalloc`;
  - `BlobObj`s are addresses in `blobs`;
  - pointer arithmetic is unbounded;
  - the allocator's destructor is not modelled.
- The runtime check of `addTensor(const Tensor&)` is left out, because runtimes are not modelled. `addTensor(Shape, DataType)` is `AddTensor` with a fresh id.
- `getBytes`, `DataType` sizes and `infer_broadcast` are not part of this model. They are given by their documented behaviour (`Graphs.Bytes`, `Shapes.Broadcast`).
- `inferShape` of operator kinds other than MatMul is not part of this model. It is the `other` parameter of shape inference.
- `TransposeObj`, `graph.h` and `removeTensor`/`removeOperator` are not part of this model. Their bodies are modelled as erase-first-by-value on the lists, and removed records stay in the stores.
- Successor, predecessor and target vectors are sets: duplicate edges are not modelled. The rewrites are therefore written on sets. The nested loops over these vectors depend on their order only when a cycle passes through the rewritten pair, and such cycles are not modelled.
- Free-block offsets and lengths are unbounded: `block_start + size` in `alloc` and `addr + size` in `free` do not wrap.
- ShapeInference.InferOp: a MatMul with an input of rank below 2 infers nothing, where the source indexes out of bounds.
- MatMul.InferShape: requires both ranks to be at least 2, which the source takes for granted without a check.
- GraphObject.Graph.ShapeInfer: a failed inference leaves the graph unchanged. The source stops on an assertion or a null dereference partway through, after writing some shapes.
- GraphObject.Graph.DataMalloc: plans with the corrected allocation (`Allocation.Allocator.AllocOrExtend`), which extends the arena at `peak` when no block fits. The source's `alloc` finds no block on a fresh allocator, so it binds every tensor at offset 0 of a 0-byte arena. That plan is `Allocation.PlanAsWritten` (see Findings).
- GraphObject.Graph.DataMalloc: the precondition of `alloc` becomes the `ArenaMaterialized` error. An unsortable graph becomes `NotSortable`, where the source stops on an assertion.
- GraphObject.Graph.Optimize: requires every live Transpose to have rank at least 2, because the source reads `perm[rank - 2]` unchecked. It does not reset `sorted`, and neither does the source.
- GraphObject.Graph.Optimize: rewrites with `Optimizer.Optimize`, so it carries that member's three corrections listed next.
- Optimizer.Optimize: uses three corrections of the source (see Findings):
  - Rule A fires when the second permutation undoes the first (`Rewrites.Applies`); the source fires on equal permutations, which is `Rewrites.AppliesAsWritten`.
  - Rule B fuses with `Rewrites.Fuse`, which flips each flag once; the source's loop is `Rewrites.FuseAsWritten`.
  - A pair is rewritten only when it is `RewriteValidity.Safe`. The source rewrites whatever else reads the Transpose's output.
- Optimizer.Optimize: termination holds because each rewrite shortens `ops`.
- Optimizer.WithTranspose: the inference of a Transpose (its input permuted by `perm`) is part of the operator library, which is not part of this model; the inference lemmas about the optimizer take it as stated there.
- Allocation.CoalesceCoalesced: requires a non-empty range, where `free` accepts size 0. An empty range is `Allocation.CoalesceEmptyRange`: it changes nothing at the start or end of a free block, and otherwise stores an empty block.
- Allocation.CoalesceFreesRange: requires a non-empty range, for the same reason; `Allocation.CoalesceEmptyRange` covers size 0.
- Rewrites.EliminateKeepsGood: states only the store invariant `Good`, which is closed stores, duplicate-free lists and Transpose ranks. `RewriteValidity.EliminateKeepsValid` states that a safe elimination keeps `checkValid` and the links. `RewriteValidity.EliminateBreaksValid` and `RewriteValidity.EliminateOrphans` show that an unsafe one does not.
- Rewrites.FuseIntoKeepsGood: states only `Good`. For `checkValid` and the links, see `RewriteValidity.FuseIntoKeepsValid` (safe fusion) and `RewriteValidity.FuseBreaksValid` (unsafe fusion).
- Lookup.CheckValid: the source's test that a tensor's producer is in `ops` always passes here, because a producer is live exactly when it is in `ops`.
- TopoSort.Sort: a null producer and an expired weak pointer are the same case, "not live".
- The allocator's `used` and `peak` wrap modulo 2^64 in every operation. Offsets past 2^64 in a plan are a `Layout` only when the total fits (`Allocation.RunningOffsetsLayout`).

## Findings

| source | as written | input that shows it | evidently intended | confidence | as-written member | corrected member |
|---|---|---|---|---|---|---|
| src/core/allocator.cc:26-59 | when no free block fits, `alloc` returns 0 and leaves `peak` alone; a fresh allocator has no free block, so `dataMalloc` gets offset 0 for every tensor and an arena of 0 bytes | two tensors of 8 bytes each on a fresh graph: both are planned at offset 0 | extend the arena at `peak` when nothing fits, so that the tensors get disjoint ranges | not executed | Allocation.PlanAsWritten, Allocation.ZeroOffsetsCollide | Allocation.PlanDisjoint, Allocation.RunningOffsetsLayout |
| src/core/allocator.cc:42-46 | for an aligned size of 0 (`alloc(0)`, since `getAlignedSize(0)` wraps to 0), the remainder is written at the block's own key and then erased with it | free list `{0: 64}`, `alloc(0)`: the list becomes empty and 64 free bytes are lost | erase the block first, then insert the remainder (only when it is not empty) | not executed | Allocation.TakeBlockZeroDropsBlock | Allocation.CarveBlockCarves |
| src/core/graph.cc:244-256 | the fusion loop compares each rewritten slot with the MatMul's current inputs, so when both inputs are the Transpose's output, `transB` flips twice | `x` of shape `[2, 3]`, Transpose `[1, 0]` to `t`, MatMul(`t`, `t`, transA false, transB true) infers `[1, 3, 3]`; after fusion, MatMul(`x`, `x`, true, true) fails | flip each flag once for the slot that read the Transpose's output | not executed | Rewrites.FuseAsWrittenDoubleToggle, Rewrites.FuseAsWrittenBreaksShape | Rewrites.FuseKeepsShape, Rewrites.FusionKeepsInference |
| src/core/graph.cc:126 | two consecutive Transposes are removed when their permutations are equal | `x` of shape `[2, 3, 4]`, two Transposes `[1, 2, 0]` giving `[4, 2, 3]`, and a MatMul of that with a `[3, 5]` weight, which infers `[4, 2, 5]`. The elimination rewires the MatMul to `x`, and `[2, 3, 4]` times `[3, 5]` fails to infer | remove the pair when the second permutation undoes the first | not executed | Rewrites.EqualPermsBreakInference, Shapes.EqualPermsMayNotCancel | Rewrites.EliminationKeepsInference, Shapes.CancelsRestoresShape |
| src/core/graph.cc:179-187 | both rules take the Transpose's output out of `tensors` and the Transpose out of `ops`, whatever else reads that output (again at lines 262-265). Rule A also keeps the second Transpose's output when nobody read it | Transposes 10 and 11, both `[1, 0]`, in a row, with operator 12 also reading 10's output. After the elimination, 12 reads a tensor no longer in `tensors` and `checkValid` fails | rewrite only when the Transpose's output has no other reader and, for rule A, the second output has one | not executed | RewriteValidity.EliminateBreaksValid, RewriteValidity.FuseBreaksValid, RewriteValidity.EliminateOrphans | RewriteValidity.RewriteKeepsValid, Optimizer.Optimize |
