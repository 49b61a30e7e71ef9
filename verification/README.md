# Verified model of the MLX bindings' graph compiler, einsum, quantization and array descriptors

A Dafny model of five parts of the repository, with proofs about them:

* **The graph compiler** (`compile.cpp`): tracing gives a graph of arrays; the compiler lays it out as a tape, merges
  equivalent arrays, contracts regions of fusable primitives into single `Compiled` primitives and replays the tape on
  the arrays of every call. The compiler's cache is modelled beside it.
* **Einsum** (`einsum.cpp`): the greedy contraction planner and the executor with its diagonals, partial sums, batched
  matrix products and naive products.
* **Affine quantization** (`fast.cpp`): packing codes into 32-bit words in both layouts, the choice of scale and bias,
  and the error of a quantize-dequantize round trip.
* **Array descriptors** (`array.cpp`): row-major strides and the destructor that frees descriptors with a worklist.
* **The padded mixture-of-experts schedule** (`bench_kernels.py`).

`dafny verify dfyconfig.toml` checks the whole project.

## How the model is built

**Graph compiler.** Array descriptors live in a map from ids to `Node`s (`ArrayGraph`); an id stands for an array handle,
and `inputs` slots are rewritten in place by the compiler. A primitive is either an uninterpreted operation (`Base`) or
a `Compiled` one, which holds an inner tape. Meaning is symbolic: every array denotes a `Term` over the placeholders,
and `Semantics<V>` interprets the operations in an arbitrary value type, so a statement about terms is a statement about
every interpretation. The invariant `LiveGraph.Good` relates the descriptors, the consumer map, an order and the terms
of the live arrays: each array's inputs are earlier, its value from its inputs' terms is its own term, and the consumer
map lists exactly the reads of live arrays. The recursive lambdas of the source become recursive methods that pass the
captured locals in and out; the proofs of the fuser are about one contraction (`Contraction.Contracts`) and are lifted
over the loop by `FusePass.Progress`. What the fuser owes beside the values is stated in `Complete`: it fuses all it
can. The first recursion visits an array once for every array of the region that reads it, so by the last visit every
user inside has been collected; only the depth limit can stop it early, and then the region has at least eleven arrays.

`no_simplify` mode, with multi-output primitives, is covered end to end: `Driver.CompileNoSimplify` followed by
`Driver.Call` returns, for every interpretation and all arguments, the values of the traced graph, and no `.at` lookup
and no shape check fails on the way. The hypotheses are those of a traced graph: it is acyclic, arrays without a
primitive have no inputs and no siblings, siblings list each other in order, and fusable primitives have one output.

Simplification is stated for graphs of single-output primitives, because `tape_order` has no entry for arrays that are
siblings of a tape array and reads 0 for them. `is_equivalent` is a parameter assumed to imply equal operations. The
walk, the simplifier and the replay are also given as functions (`Dfs.WholeWalk`, `Simplify.SimplifiedBy`,
`Replay.Replayed`, the last with its failing lookups); the methods are proved to compute them. Two facts about the code
qualify what simplification preserves:

* **Revived arrays.** The inner loop of `maybe_merge_parents` can use an array as a destination after it has masked it as
  a source of an earlier comparison. The array's edge is then erased although the array has users again; it stays on the
  tape, and what it reads can be dropped. Module `Revived` has a traced graph of fourteen arrays on which this happens:
  starting from the traced graph, `RevivedRun.DefaultModeFails` shows that in mode `enabled` the fuser's first recursion
  looks up an array without an entry, and `RevivedRun.NoFuseFails` that in mode `no_fuse` every call fails to find a
  replayed input. When this cannot happen:
  - After simplification the graph invariant holds if and only if no array on the final tape has, or reads an array that
    has, a read the consumer map does not list (`Simplify.SettledIffGood`, `Simplify.StaleIsUnlisted`).
  - In mode `no_fuse` a tape can be replayed if and only if every input of a kept array is kept
    (`SimplifyDriver.ReplayableIffKept`), and a call succeeds if and only if that holds and no output was dropped
    (`SimplifyDriver.NoFuseCall`).
  - Mode `enabled` is covered end to end for every graph on which the invariant holds after simplification
    (`SimplifyDriver.CompileEnabled` followed by `SimplifyDriver.CallEnabled`).
  - On the traced graph: if, of any three arrays the outputs depend on that compute the same, at most one is no output,
    nothing is revived (`Simplify.NotRevived`, `SimplifyDriver.UncrowdedIsSparse`), so that the invariant holds
    (`SimplifyDriver.CompileUncrowded`). The graph of module `Revived` violates this (`RevivedRun.Crowded`).
  - On any graph, a region that takes in an array which reads one without an entry in the consumer map, where that one could
    be fused too, makes the fuser throw (`Region.ReaderThrows`).
* **Repeated scalars.** Scalar constants are merged without consulting the outputs. An output stays on the tape if and only
  if it is not a later duplicate of a scalar constant (`SimplifyDriver.OutputFates`), and otherwise the replay's lookup of
  it fails: `SimplifyDriver.NoFuseCall` and `SimplifyDriver.CallEnabled` have the exact condition,
  `RepeatedScalar.RepeatedOutputFails` two constants on which every call fails.

In the cache, an entry is marked as filled before tracing. If tracing throws, the entry keeps its empty input list:
`Cache.MissKeepsApart` says exactly when entries stay distinguishable after that, and `Cache.FailedTraceDuplicates`
shows two failed calls leaving two entries for one request.

**Einsum.** Tensors are a shape and the elements by multi-index, over the integers. An assignment gives letters their
index values; `Sums.SumLetters` adds a quantity over all values of a set of letters. The central law is
`Sums.ContractFactor`: in a sum of products, a factor may be replaced by its own sum over letters that occur neither in
the other factors nor in the output. Every node of a path, the diagonals and the partial sums are instances of it. The
array library's operations (reshape, transpose, gather, squeeze, sum, multiply with broadcasting, batched matrix
product) are defined in `Tensors` by what they do to elements; unordered containers are iterated in an arbitrary order.
`Einsum.Einsum` assumes that each letter has one size everywhere and that the output letters occur in the inputs, which
the source checks only in part; under these it fails exactly on malformed subscripts and otherwise computes the direct
sum, whatever path the planner returns and whatever the limits given to it. The planner offers pairs once and carries
the others over; `Greedy.GreedyPath` shows that nothing is lost by that: every node is the best of all overlapping pairs
within the limits. An outer product is offered when nothing else is, and later only with the newest operand, which is
what the condition for contracting the rest at once says.

**Quantization.** Real arithmetic, with rounding to nearest and ties to even; words are numbers below 2^32 and every
`uint32` operation that could overflow is taken modulo 2^32.

**Descriptors.** `Heap.handles` is the multiset of all handles, so `handles[x]` is the use count of descriptor `x`;
copying, clearing and dropping handles change it as the source does. Stated for descriptors without siblings.

**Mixture of experts.** The routing (which rows belong to which expert), numpy's `argsort` and the kernels are
parameters with their documented meaning; the schedule itself is built in arrays by the loops of the source.

## Model

| member | source | states |
|---|---|---|
| ArrayGraph.NodeValueEval | bindings/mlx/mlx/compile.cpp:750-779 | running a primitive, compiled or not, under any interpretation gives the evaluation of the term it stands for |
| ArrayGraph.RunTapeEval | bindings/mlx/mlx/compile.cpp:680-692 | running an inner tape on values is evaluating the terms it computes symbolically |
| ArrayGraph.RunTapeFrame | bindings/mlx/mlx/compile.cpp:680-692 | what a captured inner tape computes depends only on the descriptors of its own arrays |
| Dfs.LogUses | bindings/mlx/mlx/compile.cpp:334-339 | a read of slot i is logged for an array and each of its siblings, and nothing else changes |
| Dfs.LeafTerm | bindings/mlx/mlx/compile.cpp:366-370 | an array without primitive stands for a known value exactly when it is available and has no dimensions, and for itself otherwise |
| Dfs.Visit | bindings/mlx/mlx/compile.cpp:325-351 | the recursion fails exactly when an original input is reachable, otherwise it extends the layout by the arrays below and logs every read once |
| Dfs.CompileDfs | bindings/mlx/mlx/compile.cpp:308-356 | throws if and only if an original input is reachable; else the tape and map of the recursive walk: topologically sorted, one representative per sibling group, exactly the arrays the outputs depend on and their siblings, each of their reads listed exactly once |
| Dfs.MembersNeeded | bindings/mlx/mlx/compile.cpp:325-355 | the tape accounts for an array if and only if an output depends on it or on a sibling of it |
| LiveGraph.GoodIsExact | bindings/mlx/mlx/compile.cpp:308-356 | under the invariant, without retired users, the consumer map lists exactly the reads of live arrays |
| LiveGraph.MergeEffect | bindings/mlx/mlx/compile.cpp:173-187 | redirecting the listed users changes exactly the reads of the source array, and the map moves exactly its edges |
| LiveGraph.MergeOne | bindings/mlx/mlx/compile.cpp:173-187 | after merging, every listed user of the source reads the destination and the source has no entry |
| Region.AllUsersIn | bindings/mlx/mlx/compile.cpp:572-583 | true exactly when every listed user is in the region |
| Region.Collect | bindings/mlx/mlx/compile.cpp:548-602 | under the invariant no lookup of an array's users fails, and the first recursion collects exactly the set its rules give, a region: fusable live arrays, each read inside it, none but the root with a user outside it |
| Region.ReaderThrows | bindings/mlx/mlx/compile.cpp:572-602 | on any graph, taking in an array that reads a fusable one without an entry in the consumer map throws |
| Region.Layout | bindings/mlx/mlx/compile.cpp:610-634 | the second recursion lays the region out in dependency order and lists the arrays read from outside |
| Region.LayoutComplete | bindings/mlx/mlx/compile.cpp:610-634 | the layout from the root contains the whole region |
| Region.RegionConvex | bindings/mlx/mlx/compile.cpp:548-602 | no path of uses leaves a collected region and comes back to it |
| Complete.CollectedExhausts | bindings/mlx/mlx/compile.cpp:552-599 | fewer than eleven arrays collected: everything used by a newly collected array, only used inside, fusable on the stream and no output of another shape has been collected |
| Complete.RegionExhausted | bindings/mlx/mlx/compile.cpp:562-599 | an array that a collected region of fewer than eleven arrays reads and could fuse with stays outside only because of a user outside |
| Complete.CollectedNear | bindings/mlx/mlx/compile.cpp:562-571 | every collected array is at most ten reads away from the root |
| Complete.AloneFinished | bindings/mlx/mlx/compile.cpp:604-608 | an entry kept as it is reads no array it could be fused with |
| Complete.NewFinished | bindings/mlx/mlx/compile.cpp:662-692 | every new array has the shape and type of the array it replaces, its primitive was built from fusable arrays of one stream and provides the root and the graph outputs among them, and nothing it reads could be fused with it |
| Complete.KeptFinished | bindings/mlx/mlx/compile.cpp:694-716 | a later contraction opens no new possibility to fuse at the arrays dealt with before |
| Contraction.CapturedValue | bindings/mlx/mlx/compile.cpp:680-692 | the new primitive, run on the terms of its positional inputs, gives the terms of the arrays it replaces |
| Contraction.CapturedUntouched | bindings/mlx/mlx/compile.cpp:694-716 | a contraction leaves already captured inner arrays as they are |
| Contraction.ContractKeepsGood | bindings/mlx/mlx/compile.cpp:636-716 | contracting a region to a node at the root's place keeps order, terms and an exact consumer map for the remaining graph |
| Fuse.DropInner | bindings/mlx/mlx/compile.cpp:636-660 | the inner arrays leave the consumer map; those that are graph outputs become outputs of the new primitive |
| Fuse.SameShapes | bindings/mlx/mlx/compile.cpp:662-671 | the shape check passes exactly when all replaced arrays have the root's shape |
| Fuse.ScalarConstants | bindings/mlx/mlx/compile.cpp:672-679 | the recorded constants are exactly the size-1 inputs without a primitive that are not function inputs |
| Fuse.MakeArrays | bindings/mlx/mlx/array.cpp:43-59 | fresh arrays, one per shape, results of one primitive, siblings of one another in order |
| Fuse.RepointInputs | bindings/mlx/mlx/compile.cpp:694-706 | at every input, the users inside the region are replaced by all new arrays at the input's position |
| Fuse.MergeOutputs | bindings/mlx/mlx/compile.cpp:708-716 | the outside users of the replaced root read the new array |
| Fuse.Rewire | bindings/mlx/mlx/compile.cpp:694-716 | the two repointing steps together produce the contracted graph and consumer map |
| Fuse.ContractRegion | bindings/mlx/mlx/compile.cpp:604-716 | from a collected region the steps always succeed, the shape error is unreachable, and the result is the contraction of that region |
| FusePass.ApartContracts | bindings/mlx/mlx/compile.cpp:538-561 | a contraction keeps the regions of all compiled arrays of the graph pairwise disjoint, the new one included |
| FusePass.UpdateOutputs | bindings/mlx/mlx/compile.cpp:708-716 | exactly the replaced graph outputs are mapped to the arrays that replace them |
| FusePass.MapOutputs | bindings/mlx/mlx/compile.cpp:719-725 | the returned outputs are the recorded replacements |
| FusePass.FuseAt | bindings/mlx/mlx/compile.cpp:636-717 | one step of the walk keeps the invariant, the outputs' terms, the reversed tape under construction, and that nothing more can be fused at what is on it |
| FusePass.InOrderReplayable | bindings/mlx/mlx/compile.cpp:719-725 | a tape in the invariant's order that holds every live array can be replayed |
| FusePass.CompileFuse | bindings/mlx/mlx/compile.cpp:509-726 | for every graph that meets the invariant the fused tape can be replayed, accounts for exactly the live arrays, gives every live output the term it had, leaves outputs that had left the graph as they are, and keeps the regions of different compiled arrays disjoint; nothing fusable is left: an array on it reads one it could be fused with only if that has another listed user or the region reached the depth limit, and every compiled array looks like the output it replaces and was built from fusable arrays of one stream |
| Replay.NodeRight | bindings/mlx/mlx/compile.cpp:739-781 | a tape entry whose inputs are replayed binds its array and its siblings to the values of their terms |
| Replay.CompileReplace | bindings/mlx/mlx/compile.cpp:728-788 | the result is the replay, None exactly when a lookup fails; a sorted tape that accounts for the outputs gives every output the value of its term under the given interpretation |
| Replay.ReplayRight | bindings/mlx/mlx/compile.cpp:728-788 | replaying a sorted tape never fails, and every output gets the value of its term |
| Replay.MissingOutputFails | bindings/mlx/mlx/compile.cpp:783-786 | a call fails when an output is neither an argument nor accounted for by the tape |
| Driver.CompileNoSimplify | bindings/mlx/mlx/compile.cpp:830-855 | without simplification: throws if and only if an original input is reachable, otherwise the entry implements the traced graph, no array was fused twice, every compiled array is built from fusable arrays of one stream, and an array reads one it could be fused with only if that is read elsewhere too or the region reached the depth limit |
| Driver.Call | bindings/mlx/mlx/compile.cpp:862-866 | a call returns, for every interpretation and all arguments, what the traced graph computes |
| Simplify.EquivalentTerms | bindings/mlx/mlx/compile.cpp:398-422 | arrays the equivalence test accepts stand for the same term |
| Simplify.MergeKeeps | bindings/mlx/mlx/compile.cpp:173-198 | merging an array into an earlier one of the same term keeps terms, order and the lists of users |
| Simplify.FindScalars | bindings/mlx/mlx/compile.cpp:391-395 | the table holds the first scalar constant of every value and type on the tape |
| Simplify.MergeScalars | bindings/mlx/mlx/compile.cpp:424-438 | an entry leaves the tape if and only if it is available, has no dimensions, and an earlier such entry has the same bits and type; nothing else changes its term or order |
| Simplify.TapeOrder | bindings/mlx/mlx/compile.cpp:440-443 | the numbering of the tape agrees with the order of its arrays |
| Simplify.Compare | bindings/mlx/mlx/compile.cpp:467-479 | a comparison merges the later of two equivalent users, never an output, into the earlier one, and keeps the scan's invariant |
| Simplify.MergeUsers | bindings/mlx/mlx/compile.cpp:459-481 | the two nested loops keep terms, order and user lists; their effect is the iterated comparison, and of every two live users that have to be merged one is masked |
| Simplify.MergeAlikeKept | bindings/mlx/mlx/compile.cpp:173-198 | a merge keeps live arrays that read the same inputs reading the same inputs |
| Simplify.MergedLeave | bindings/mlx/mlx/compile.cpp:482-487 | of every two users that have to be merged, one leaves the list |
| Simplify.EraseMasked | bindings/mlx/mlx/compile.cpp:482-487 | the edges that are not masked stay, in their order |
| Simplify.UnmaskedIs | bindings/mlx/mlx/compile.cpp:482-487 | an edge stays if and only if its place is not masked, and none appears twice |
| Simplify.RetireKeeps | bindings/mlx/mlx/compile.cpp:482-487 | erasing the masked edges keeps the invariant of the remaining lists with the masked arrays retired |
| Simplify.MaybeMergeParents | bindings/mlx/mlx/compile.cpp:454-492 | the invariant, the outputs and the terms are kept; of every two live users with primitives of one type that are equivalent on the same inputs, the later no output, one leaves the list; an array is discarded if and only if it has no entry and is no output, and then it is not live |
| Simplify.NotRevived | bindings/mlx/mlx/compile.cpp:458-480 | a merge gives no array that was merged away its users back, unless three arrays have one term and two of them are no outputs |
| Simplify.SimplifyPass | bindings/mlx/mlx/compile.cpp:451-503 | one pass keeps the invariant; the new tape is an increasing part of the old one with every live array |
| Simplify.SettledIffGood | bindings/mlx/mlx/compile.cpp:458-487 | the whole graph invariant holds after simplification if and only if no kept array was merged away or reads one that was |
| Simplify.StaleIsUnlisted | bindings/mlx/mlx/compile.cpp:482-487 | the arrays that were merged away are exactly the laid out ones with a read the consumer map does not list |
| Simplify.SparseSettles | bindings/mlx/mlx/compile.cpp:451-503 | if of three arrays with one term at most one is no output, no kept array was merged away or reads one that was |
| Simplify.CompileSimplify | bindings/mlx/mlx/compile.cpp:360-505 | any number of passes: every kept array still stands for its term and reads laid out arrays before it; an output is kept if and only if it is not a later duplicate scalar; the invariant holds if and only if no kept array has, or reads an array that has, an unlisted read, as is the case without three arrays of one term |
| Revived.LaidOutGraph | bindings/mlx/mlx/compile.cpp:325-355 | the tape and the consumer map the walk makes of the example graph |
| RevivedRun.Entry2 | bindings/mlx/mlx/compile.cpp:458-487 | among the users of one array of the example, two are merged into a third that was itself merged away |
| RevivedRun.DefaultModeFails | bindings/mlx/mlx/compile.cpp:572-576 | in mode enabled, the fuser on the simplified example looks up the users of an array without an entry |
| RevivedRun.NoFuseFails | bindings/mlx/mlx/compile.cpp:744-749 | in mode no_fuse, every call of the compiled example fails to find a replayed input |
| RevivedRun.Crowded | bindings/mlx/mlx/compile.cpp:458-480 | the example has three arrays that compute the same, two of them no outputs |
| RepeatedScalar.RepeatedOutputFails | bindings/mlx/mlx/compile.cpp:424-438 | of two equal constants that are outputs the second leaves the tape, and every call fails |
| SimplifyDriver.OutputFates | bindings/mlx/mlx/compile.cpp:424-438 | every output is on the simplified tape exactly when it is not a duplicate scalar constant |
| SimplifyDriver.UncrowdedIsSparse | bindings/mlx/mlx/compile.cpp:398-422 | the condition on the traced graph gives the one on terms that keeps arrays from being revived |
| SimplifyDriver.LayOutAndSimplify | bindings/mlx/mlx/compile.cpp:838-849 | layout then simplification from the traced graph: it throws if and only if an original input is reachable; else the kept arrays, the fate of every output, and the exact condition of the invariant |
| SimplifyDriver.FusedButHeld | bindings/mlx/mlx/compile.cpp:572-592 | after fusing a simplified graph an array is left apart only where it is read elsewhere, still listed for a dropped array, or at the depth limit |
| SimplifyDriver.CompileEnabled | bindings/mlx/mlx/compile.cpp:830-855 | mode enabled end to end, wherever the invariant holds after simplification: throws if and only if an original input is reachable; otherwise the entry provides every output but the repeated scalar constants, no array was fused twice, and nothing that could be fused is left but arrays the map still lists as read by one that was dropped |
| SimplifyDriver.CompileUncrowded | bindings/mlx/mlx/compile.cpp:830-855 | the same from the traced graph alone: simplification settles if of three arrays that compute the same at most one is no output |
| SimplifyDriver.CallEnabled | bindings/mlx/mlx/compile.cpp:862-866 | a call in mode enabled succeeds if and only if no output is a repeated scalar constant, and then returns what the traced graph computes |
| SimplifyDriver.LostIffRepeated | bindings/mlx/mlx/compile.cpp:424-438 | an output is off the simplified tape if and only if it is a later duplicate of a scalar constant |
| SimplifyDriver.ReplayableIffKept | bindings/mlx/mlx/compile.cpp:744-749 | the simplified tape can be replayed if and only if every input of a kept array is kept |
| SimplifyDriver.NoFuseCall | bindings/mlx/mlx/compile.cpp:739-787 | in mode no_fuse a call succeeds if and only if every input of a kept array is kept and no output is a later duplicate scalar; then every output has its value in the traced graph |
| SimplifyDriver.CompileNoFuse | bindings/mlx/mlx/compile.cpp:830-849 | the entry of mode no_fuse is the simplified layout, and without crowded terms every input of a kept array is kept |
| SimplifyDriver.CallNoFuse | bindings/mlx/mlx/compile.cpp:862-866 | the exact condition for a call to succeed, and the values it returns |
| Cache.AtMostOneMatch | bindings/mlx/mlx/compile.cpp:254-260 | entries that are apart answer any request at most once |
| Cache.ApartNext | bindings/mlx/mlx/compile.cpp:261-263 | adding an entry keeps the entries apart if and only if none matched it |
| Cache.MissKeepsApart | bindings/mlx/mlx/compile.cpp:830-843 | after a miss the entries stay apart if and only if tracing succeeded, the request had no inputs, or no input-less entry has the same constants |
| Cache.FailedTraceDuplicates | bindings/mlx/mlx/compile.cpp:830-836 | two calls whose tracing throws leave two entries that match one request and answer it without a trace |
| Cache.MatchMeans | bindings/mlx/mlx/compile.cpp:229-260 | an entry matches exactly when it has as many inputs, each of the same type and rank and unless shapeless of the same shape, and equal constants |
| Cache.RepeatedRequest | bindings/mlx/mlx/compile.cpp:816-866 | after a miss the same request is answered with the tape if there is one; a trace that threw answers no request but one without inputs |
| Cache.CompilerCache.Find | bindings/mlx/mlx/compile.cpp:223-264 | the first matching entry, or a new empty entry when none matches |
| Cache.CompilerCache.Erase | bindings/mlx/mlx/compile.cpp:266-268 | exactly one function's entries are gone; entries stay honest and no request gets a second answer |
| Cache.CompilerCache.Clear | bindings/mlx/mlx/compile.cpp:270-272 | no entries are left, so none is wrong and no request has two answers |
| Cache.CompilerCache.Call | bindings/mlx/mlx/compile.cpp:816-866 | over any sequence of calls no request has two answers unless a trace throws; a tape returned comes from compiling a request with as many inputs, each of the same type and rank, of the same shape unless shapeless, and equal constants; if an entry was made for such a request nothing is compiled and the first of them answers, otherwise the function is compiled once |
| Sums.ContractFactor | bindings/mlx/mlx/einsum.cpp:767-857 | in a sum of products a factor may be replaced by its partial sum over letters found nowhere else |
| Sums.SumPick | bindings/mlx/mlx/einsum.cpp:591-604 | letters may be summed in any order |
| Sums.SumUnion | bindings/mlx/mlx/einsum.cpp:591-604 | summing over two disjoint sets of letters is summing over one inside the other |
| Tensors.RavelUnravel | bindings/mlx/mlx/array.cpp:227-237 | row-major positions are below the size and determine the index |
| Tensors.UnravelRavel | bindings/mlx/mlx/array.cpp:227-237 | every position below the size is the position of exactly one valid index |
| Tensors.RavelJoin | bindings/mlx/mlx/einsum.cpp:365-389 | flattening runs of axes keeps every row-major position |
| Labels.TransposeVal | bindings/mlx/mlx/einsum.cpp:365-389 | reordering axes by letters is a permutation and keeps the value at every assignment |
| Labels.SumAxesVal | bindings/mlx/mlx/einsum.cpp:512-524 | summing out axes is summing over their letters |
| Labels.FlatSum | bindings/mlx/mlx/einsum.cpp:373-389 | a sum over flattened positions is the nested sum over the letters |
| Subscripts.InsertLetter | bindings/mlx/mlx/einsum.cpp:536-542 | a new letter gets the next number, a known one keeps its own |
| Dot.FlatAt | bindings/mlx/mlx/einsum.cpp:365-389 | flattening the free and contracted axes keeps every element |
| Dot.ContractedVal | bindings/mlx/mlx/einsum.cpp:403-408 | the batched matrix product over flattened axes, unflattened, is the sum over the contracted letters |
| Tensordot.TransposeReshape | bindings/mlx/mlx/einsum.cpp:365-389 | the loops build the flattened transpose |
| Tensordot.BatchTensordot | bindings/mlx/mlx/einsum.cpp:343-409 | equals the flattened matrix product of the transposed operands |
| Tensordot.SortAxes | bindings/mlx/mlx/einsum.cpp:782-797 | the axes of the first operand, split by letter into contracted, batch and free ones, in order |
| Tensordot.OwnAxes | bindings/mlx/mlx/einsum.cpp:808-814 | the axes only the second operand keeps, in order |
| Tensordot.DotNode | bindings/mlx/mlx/einsum.cpp:777-844 | a dot node's result holds, at every assignment of the output letters, the sum of products over the contracted letters |
| Products.ReplaceOne | bindings/mlx/mlx/einsum.cpp:483-528 | an operand may be replaced by its sum over letters of its own without changing the total |
| Naive.CharToAx | bindings/mlx/mlx/einsum.cpp:536-542 | numbers exactly the letters of the inputs, in order of first occurrence |
| Naive.SpreadOperand | bindings/mlx/mlx/einsum.cpp:544-589 | an operand with an axis for every letter, size 1 where it lacks it, and the same value at every assignment |
| Naive.AscendingIsIdentity | bindings/mlx/mlx/einsum.cpp:575-581 | when the sorted axes are ascending the transpose may be skipped |
| Naive.NextProduct | bindings/mlx/mlx/einsum.cpp:591-595 | multiplying with broadcasting multiplies the values at every assignment |
| Naive.AxisAfterSum | bindings/mlx/mlx/einsum.cpp:606-620 | subtracting the summed axes before it gives a letter's axis in the summed result |
| Naive.EinsumNaive | bindings/mlx/mlx/einsum.cpp:530-621 | a naive node's result holds the direct sum of products at every assignment of the output letters |
| Collapse.GatherArguments | bindings/mlx/mlx/einsum.cpp:446-466 | every axis of a repeated letter gets that letter's index array, slices are 1 there, and each array varies along its own axis |
| Collapse.GatherAt | bindings/mlx/mlx/einsum.cpp:446-468 | the gathered element is the operand's element at the diagonal index |
| Collapse.CollapseRepeats | bindings/mlx/mlx/einsum.cpp:418-477 | one axis per letter and the same value at every assignment |
| Preprocess.CountUses | bindings/mlx/mlx/einsum.cpp:497-510 | the number of inputs and outputs that have each letter |
| Preprocess.EraseLetters | bindings/mlx/mlx/einsum.cpp:523-526 | erasing from the back leaves exactly the other letters in order |
| Preprocess.SumSingles | bindings/mlx/mlx/einsum.cpp:511-527 | an operand's partial sum over the letters only it has |
| Preprocess.PreprocessInputs | bindings/mlx/mlx/einsum.cpp:483-528 | the sums the operands stand for stay; afterwards subscripts have distinct letters and no letter is private to one operand |
| Plan.NodeKeepsTotal | bindings/mlx/mlx/einsum.cpp:773-855 | replacing a node's operands by its result keeps what the operand list stands for |
| Plan.SelectSplit | bindings/mlx/mlx/einsum.cpp:733-739 | the product of all operands is that of the selected ones times that of the others |
| Plan.DropSame | bindings/mlx/mlx/einsum.cpp:851-854 | operands off the node's positions survive unchanged |
| Greedy.TermSize | bindings/mlx/mlx/einsum.cpp:110-117 | the product of the letters' sizes, in any order |
| Greedy.CostAndScaling | bindings/mlx/mlx/einsum.cpp:135-153 | cost and letter count of contracting all inputs at once |
| Greedy.CandidateMeans | bindings/mlx/mlx/einsum.cpp:223-236 | the record of a pair holds the elements of the two inputs less those of the result, and one multiplication, with an addition if a letter is summed, for every assignment |
| Greedy.AddContraction | bindings/mlx/mlx/einsum.cpp:199-237 | adds the pair's exact record unless a limit is exceeded |
| Greedy.ScoredExact | bindings/mlx/mlx/einsum.cpp:239-252 | scoring pairs adds only exact records |
| Greedy.Candidates | bindings/mlx/mlx/einsum.cpp:239-252 | overlapping pairs are scored in turn, outer products only when there is no candidate at all |
| Greedy.Best | bindings/mlx/mlx/einsum.cpp:266-272 | the first of the candidates that shrink the operands most and are cheapest among those |
| Greedy.CarriedExact | bindings/mlx/mlx/einsum.cpp:298-315 | a carried-over candidate is exactly what scoring its shifted pair on the new list would give |
| Greedy.CarriedAllExact | bindings/mlx/mlx/einsum.cpp:298-315 | so all carried-over candidates stay exact |
| Greedy.CarryOver | bindings/mlx/mlx/einsum.cpp:298-315 | keeps exactly the candidates that do not touch the contracted pair, shifted |
| Greedy.SortLetters | bindings/mlx/mlx/einsum.cpp:275-281 | the output letters sorted by size |
| Greedy.PairNode | bindings/mlx/mlx/einsum.cpp:283-296 | the chosen pair is a valid node and the planner's list is the list after it |
| Greedy.Step | bindings/mlx/mlx/einsum.cpp:266-315 | one contraction: best candidate, valid node, new list, exact carried candidates, cost and scaling of the node |
| Greedy.NextNode | bindings/mlx/mlx/einsum.cpp:239-266 | no pair is found only if nothing was carried and every pair on offer has too large a result or too high a cost; otherwise the pair contracted is no worse than any carried candidate and any overlapping pair on offer within the limits, and an outer product only if it was carried or there were neither |
| Greedy.KnownNext | bindings/mlx/mlx/einsum.cpp:298-322 | every overlapping pair of operands within the limits is carried or on offer in the next step |
| Greedy.RoomyPath | bindings/mlx/mlx/einsum.cpp:194-264 | when no result and no cost can exceed the limits, every node contracts exactly two operands |
| Greedy.GreedyPath | bindings/mlx/mlx/einsum.cpp:155-326 | whatever the limits, a valid path to one operand with the output's letters, with its true cost and scaling; every node contracts the pair that removes the most elements, at the least cost among equals, of all overlapping pairs within the limits, or everything when no overlapping pair and none with the newest operand is within them; with limits that bind nothing each of its nodes contracts two operands |
| Greedy.FinishPlan | bindings/mlx/mlx/einsum.cpp:735-739 | relabelling the last result by the requested output completes the plan |
| Executor.Contract | bindings/mlx/mlx/einsum.cpp:777-849 | dot or naive, a preprocessed node computes what its operands stand for |
| Executor.RunNode | bindings/mlx/mlx/einsum.cpp:773-855 | operands and subscripts stay in step, and the operand list keeps standing for the same sums |
| Executor.RunPath | bindings/mlx/mlx/einsum.cpp:767-857 | any valid path leaves one operand, labelled by the output, that holds the direct sum over all other letters of the product of all operands |
| Einsum.CheckRepeats | bindings/mlx/mlx/einsum.cpp:681-697 | fails exactly when a repeated letter has two sizes in one input |
| Einsum.AddDims | bindings/mlx/mlx/einsum.cpp:699-713 | the largest size of every letter is recorded, seen before or at one of its axes; it fails only on two different sizes of a letter, neither 1, and never when every axis has size 1 or its letter's size |
| Einsum.CheckInputs | bindings/mlx/mlx/einsum.cpp:667-714 | every failure names the first bad input and what is wrong with it: its rank, two sizes of one letter, or a size that clashes with an earlier one; success records for every letter its largest size anywhere |
| Einsum.LargestTerm | bindings/mlx/mlx/einsum.cpp:716-719 | the size of the largest operand or of the output |
| Einsum.PlanPath | bindings/mlx/mlx/einsum.cpp:721-740 | a valid plan: all at once up to two operands, else a greedy path within the naive cost and the largest term with the last result labelled by the output; the naive and planned costs |
| Einsum.EinsumPathHelper | bindings/mlx/mlx/einsum.cpp:623-741 | exactly when each of the first four errors occurs, and what the others say; success gives well-formed subscripts, the largest size of every letter and the plan for them, and operands that broadcast to one size per letter are accepted |
| Einsum.Einsum | bindings/mlx/mlx/einsum.cpp:767-857 | succeeds if and only if the subscripts are well formed, and then computes the direct sum of products with diagonals for repeated letters; otherwise the error tells what is wrong |
| Packing.DigitAt | bindings/mlx/mlx/fast.cpp:684-726 | a digit of a number is read back by division and remainder |
| Packing.StreamRoundTrip | bindings/mlx/mlx/fast.cpp:706-723 | unpacking the bit stream undoes packing it, for every width and all codes below 2^bits |
| Packing.ShiftRoundTrip | bindings/mlx/mlx/fast.cpp:864-877 | unpacking by two shifts undoes shift-and-sum packing |
| Packing.LayoutsAgree | bindings/mlx/mlx/fast.cpp:701-723 | for widths that divide 32 both layouts are the same words |
| Quantize.ClippedPart | bindings/mlx/mlx/fast.cpp:693-700 | what clipping cuts off after the scale is derived again is at most one first scale |
| Quantize.WeightError | bindings/mlx/mlx/fast.cpp:767-784 | quantizing and dequantizing moves a weight by at most max((max - min) / (2^bits - 1), 1e-7), clipped values included |
| Quantize.ZeroIsExact | bindings/mlx/mlx/fast.cpp:775-784 | zero is represented exactly whenever the range contains it |
| Quantize.EdgeIsExact | bindings/mlx/mlx/fast.cpp:775-784 | the edge is recovered exactly if and only if its code is not zero or it is zero |
| Affine.PackRoundTrip | bindings/mlx/mlx/fast.cpp:684-726 | for every supported width unpacking undoes packing and the word count is the bit count over 32 |
| Affine.LargestInGroup | bindings/mlx/mlx/fast.cpp:773-784 | the weight of largest absolute value of a group, the positive one of two, is restored exactly if its double exceeds the step of the group |
| Affine.QuantizeRoundTrip | bindings/mlx/mlx/fast.cpp:729-784 | a row is accepted exactly for supported parameters, each error has its own condition, and for every weight there are two weights a and b of its group so that it comes back within max((a - b) / (2^bits - 1), 1e-7); zeros and the largest weight of every group come back exactly |
| Affine.DequantizeAccepts | bindings/mlx/mlx/fast.cpp:804-856 | packed words are dequantized exactly for a positive width and group size, as many biases as scales, and as many codes as those groups have; which error comes first |
| Affine.DequantizeCodes | bindings/mlx/mlx/fast.cpp:859-897 | dequantizing restores every code with its group's scale and bias |
| Descriptors.Init | bindings/mlx/mlx/array.cpp:227-233 | the loop fills in the row-major strides and the size |
| Descriptors.OffsetIsRavel | bindings/mlx/mlx/array.cpp:227-233 | offsets by strides are row-major positions |
| Descriptors.StridesInjective | bindings/mlx/mlx/array.cpp:227-233 | different indices have different offsets below the size |
| Descriptors.Heap.AppendDeletableInputs | bindings/mlx/mlx/array.cpp:271-287 | the inputs are cleared and exactly the handles nobody else has move to the worklist |
| Descriptors.ClearKeepsCounts | bindings/mlx/mlx/array.cpp:271-287 | clearing keeps the handle accounts balanced; a moved handle is the only one |
| Descriptors.SplitLonely | bindings/mlx/mlx/array.cpp:282-286 | the loop moves exactly the handles with use count one |
| Descriptors.DrainRound | bindings/mlx/mlx/array.cpp:291-305 | a round of the worklist keeps the accounts, and the popped descriptor has empty inputs when its last handle goes |
| Descriptors.SurvivorReachable | bindings/mlx/mlx/array.cpp:257-306 | whatever survives is reachable from a handle held outside |
| Descriptors.ReachableSurvives | bindings/mlx/mlx/array.cpp:257-306 | whatever is reachable from a handle held outside survives |
| Descriptors.Heap.Destroy | bindings/mlx/mlx/array.cpp:257-306 | terminates, frees exactly the descriptors not reachable from outside, each once, and leaves the others' inputs as they were |
| Moe.PaddedOffsets | perf/bench_kernels.py:3309-3311 | prefix sums of the row counts rounded up to whole tiles |
| Moe.ExpertOfTile | perf/bench_kernels.py:3313-3316 | every tile is labelled with the expert that owns it |
| Moe.PadPositions | perf/bench_kernels.py:3317-3320 | every row is placed in its expert's padded rows, in order |
| Moe.PadPosInjective | perf/bench_kernels.py:3317-3320 | different rows get different, increasing places |
| Moe.PadPosOwned | perf/bench_kernels.py:3317-3320 | a row's place is in range and in a tile its expert owns |
| Moe.PaddingAtMost | perf/bench_kernels.py:3309-3312 | padding is at most 31 rows for every expert with rows |
| Moe.GatherIndex | perf/bench_kernels.py:3321-3322 | a row's place reads the row's token, places of no row read token 0 |
| Moe.ArgsortInverts | perf/bench_kernels.py:3323 | the argsort of a permutation is its inverse |
| Moe.HostGlued | perf/bench_kernels.py:3304-3323 | the three arrays of the schedule meet all of this for every routing |
| Moe.ScheduleComputesMixture | perf/bench_kernels.py:3304-3328 | the finalized output of a token is the weighted sum over its experts applied to it, for any routing |

## Left out

- Array contents, devices, streams, events and evaluation scheduling: a replayed array is represented by its value; the stream of a primitive is only compared.
- Shapeless recomputation of output shapes in `compile_replace` and the list of primitives that `compile_validate_shapeless` accepts.
- Simplify.CompileSimplify: stated for single-output primitives, because the source orders siblings of tape arrays by a default of 0.
- SimplifyDriver.CompileEnabled: its condition is exact for the graph invariant the fuser relies on; a graph without it can still be fused correctly, when an array that was discarded but got users again is collected into a region, and what the fuser makes of such graphs in general is not modelled.
- SimplifyDriver.CompileUncrowded: its condition on the traced graph is sufficient and not necessary, as whether three equal arrays lead to a revived one depends on the order in which the users of their inputs are listed.
- Simplify.EquivalentTerms: the equivalence test on primitives is a parameter assumed to be sound; the tests of the single primitives are not part of this model.
- The compile mode `disabled` and calls with tracer inputs, which return the original function.
- The address of a function as cache key, and references into the cache's vectors that a nested compilation of the same function may invalidate.
- Cache.CompilerCache.Call: the shapeless flag is fixed per function, as a flag that changes between calls makes matching asymmetric.
- Parsing of the subscript string, including the implicit output of subscripts without an arrow.
- Einsum.EinsumPathHelper: output letters that occur in no input are excluded by its precondition.
- Einsum.Einsum: sizes of 1 that broadcast against other sizes of the same letter, and output letters that occur in no input, are excluded by its preconditions; element types and their rounding are not modelled, values are integers.
- Greedy.GreedyPath: sizes and costs are unbounded numbers, without the wrap-around of `size_t`; each node is within the limit on costs, but no bound on the cost of the path is claimed, because carried-over candidates are not compared with the limit again.
- Greedy.SortLetters: letters of one size come in any order, as the sort of the source is not stable.
- Tensordot.BatchTensordot: contracted sizes of the two operands are equal, so that the broadcast at its start changes nothing.
- Quantize.WeightError: real numbers instead of floating point; NaN and the dtype of the weights are not modelled.
- Affine.DequantizeAccepts: widths up to 32; that there are as many biases as scales is checked where the source leaves it to the broadcasting of the addition.
- Affine.QuantizeRoundTrip: one row; leading dimensions only repeat it.
- Descriptors.Heap.Destroy: descriptors without siblings; data buffers, and the top-level array destructor that breaks sibling cycles first, are not part of this model.
- The GPU schedule that the host schedule is compared with, the routing and permutation kernels, and all timing code.
- Norms, attention, rotary embeddings, custom Metal kernels, data type tables, FFT shape checks, allocator and device code: string building, calls into operations that cannot be seen, or properties settled by enumeration.
