# Proofs about TinyHVM

TinyHVM is an interaction-net runtime with a tensor compiler on top. This project
models seven of its parts and proves what they are for. Each part is modelled branch
by branch from the C source; the properties are stated for all inputs, all runs or all
interleavings.

**Superposition and duplication** (`Streams`, `Nets`, `Rules`, `Patches`, `Keeping`,
`Duplication`, `Distribution`, `Soundness`, `Runs`, `SharedOperands`, `Answers`, `Machine`,
`Strategy`, `Weights`, `Descents`, `Lightening`, `Termination`). A heap of term words,
DUP cells with a SUB bit, and the interaction rules as functions on heaps. An
environment gives every label an infinite stream of bits: a SUP pops a bit of its label
and takes that side, a DUP port pushes its side and looks at the cell, and a cell marked
SUB is looked at under the environment as it is. Under this meaning every DUP rule and
every "distribute over SUP" rule is an equality, nested equal labels included. The net
is kept linear (a node is owned by one word, a DUP cell by its two ports) and acyclic (a
ghost rank), through in-place reuse of a SUP and the hand-over of the sibling's value.
`Machine` is the runtime as a class over one heap buffer. Reduction ends: every
interaction lowers a measure of the net that is well-founded although nodes are copied,
because looking through a DUP port leaves the mass of a word as it is.

**Collapse** (`DecisionTables`, `NetCollapse`, `BranchTrees`, `BucketQueues`,
`OrderedCollapse`, `OrderedResults`, `Priorities`, `OrderedLevels`, `OrderedNets`,
`OrderedNetRuns`, `StealingCollapse`, `StealingRuns`). The grouped collapse as a
decision table over label choices, on trees and on nets under any reduction schedule;
the ordered collapse with its 64 growing ring buffers against a stable priority queue,
and on nets in the order of that queue; the work-stealing collapse as atomic steps.

**Parallel tree sum** (`TreeSum`, `SeqEval`, `Continuations`, `ContinuationSteps`,
`ContinuationWork`, `ContinuationRuns`, `ContinuationCalls`). The continuation protocol
as a state machine whose steps are dispatch, the two halves of a slot write, the
countdown, and firing; and the evaluators on their explicit stack.

**Fused chains** (`Chains`, `ChainWalk`, `ChainDispatch`, `ChainOutputs`,
`ChainValues`, `ChainFallback`). From a deferred elementwise tensor to a leaf table and
an operation list, the index remap, side outputs, and the fallback. Operations are
uninterpreted, so equal values are equal for every backend.

**Reshape against broadcast** (`Shapes`, `ReshapeTargets`, `ReshapeRefinements`). The
greedy matcher that moves a reshape from an operation onto its leaves.

**Sliding windows and convolution** (`Moves`, `Pooling`, `PoolChain`, `PoolPaths`,
`PoolPadded`, `Convolution`, `ConvSums`, `ConvOutputs`, `WindowCounts`). Movement
operations as index maps; the three ways to build windows; grouped convolution built
from movement operations.

**Two tables** (`Probing`, `ShapeTables`, `TableRoom`, `UseChains`, `UseRewrites`). The
shape table with bounded probing and eviction, and the table that turns repeated uses of
a term into a chain of DUP cells, also while the heap is being rewritten.

## What does not hold

Where the code falls short of what one would expect, the exact condition is proved.

- The right-hand SUP rules of OP2 and EQL store the left operand twice without a DUP.
  `Runs.StepValidIff`: a step leaves a linear net if and only if it is not such a step
  with a pointer on the left. Values fare better. An EQL keeps its value even then
  (`SharedOperands.EqlKeeps`). An OP2 keeps it in an environment if and only if its left
  operand is the same before and after a bit of the SUP's label is taken
  (`SharedOperands.Op2KeepsIff`), so in every environment when no SUP of that label can
  be reached from the left operand (`SharedOperands.SharedKeeps`). `Runs.SharedExample`
  and `SharedOperands.SharedValueChanges` are nets on which linearity and value are lost.
- A fused kernel takes eight side outputs, but every intermediate with a positive
  consumer counter gets a buffer, and the counter also counts the chain's own readers.
  `ChainValues.ChainKeepsIff`: all values survive if and only if each tensor with a
  positive counter is computed at some place of the schedule with fewer than eight such
  places before it (and the output overwrites no other value). With counters as they are
  kept, and no output buffer chosen beforehand, that is: each tensor of the schedule but
  the last is computed at one of the first eight places (`ChainValues.CountedKeepsIff`),
  so at most nine operations when none is repeated (`ChainValues.AtMostNine`).
  `ChainValues.NinthIsLost` is a plain chain of ten, with no reader outside, that loses a
  value.
- The repeat chain of `thvm_pool` shrinks beyond its axis when a step is too large.
  `PoolPaths.RepeatRunsIff`: the program can be applied if and only if no step exceeds
  twice its axis plus one. `PoolPaths.LongStepFails` is an input on which it cannot.
- The strided window view drops the mask of the batch axes. `PoolPaths.ViewMaskIff`:
  it treats the right elements as padding if and only if no batch axis is masked or the
  windows see nothing but padding. `PoolPaths.BatchMaskLost` is an input on which it
  does not.
- `linear_use` stores a term unshared when its probe window is full.
  `UseChains.TermOnceIff` gives the exact condition, `UseChains.NinthIsShared` a run.
- The plain collapse keeps erased leaves and the ordered one skips them; the
  work-stealing workers split SUP but store a USP as a leaf. The statements below
  compare like with like.

## Model

| member | source | states |
|---|---|---|
| Runs.StepSound | src/interact/combinators.c:484-1146 | Any one interaction of DP0, DP1, OP2, EQL, AND, OR, SEQ, ANN or INC that is not a right-hand SUP rule with a pointer on the left keeps the net linear and acyclic, and every root selects the same value in every label environment |
| Runs.StepValidIff | src/interact/combinators.c:775-786 | After a step some choice of live slots is linear and acyclic if and only if the step did not store a pointer twice |
| Runs.SharedExample | src/interact/combinators.c:775-786 | On the valid net of OP2(OP2(ANY, 1), SUP of 2 and 3) the step leaves no linear net, whatever slots are taken as live |
| SharedOperands.EqlKeeps | src/interact/combinators.c:935-947 | An EQL whose stuck left operand is stored twice keeps its value in every environment |
| SharedOperands.Op2KeepsIff | src/interact/combinators.c:775-786 | An OP2 whose stuck left operand is stored twice keeps its value in an environment if and only if that operand has the same value before and after a bit of the SUP's label is taken |
| SharedOperands.SharedKeeps | src/interact/combinators.c:775-786 | The value is kept in every environment when the node is an EQL, or when no SUP of the label that is distributed can be reached from the left operand |
| SharedOperands.SharedValueChanges | src/interact/combinators.c:775-786 | On the valid net of OP2(AND(ANY, SUP of 1 and 2), SUP of 2 and 3), both SUPs of one label, the step changes the value of the root |
| Runs.RunSound | src/interact/combinators.c:484-1146 | Every run of these interactions, in any order, keeps the net invariant, keeps roots roots, and keeps what each root selects in every environment |
| Runs.AnswersAgree | src/interact/combinators.c:484-1146 | Two runs in different orders that both bring a root to an atom bring it to the same atom |
| Soundness.SoundTakeSub | src/interact/combinators.c:495-504 | Picking up the value that the sibling left in a SUB cell keeps the net and every root's value |
| Soundness.SoundAnnihilate | src/interact/combinators.c:538-542 | DUP against a SUP of its own label: each port gets its side, net and values kept, nested labels included |
| Soundness.SoundCommute | src/interact/combinators.c:543-560 | DUP against a SUP of another label, with the SUP's first slot reused as a DUP cell, keeps the net and every root's value |
| Soundness.SoundCopyNode | src/interact/combinators.c:598-616 | Duplicating an OP2, EQL, AND, OR, SEQ (lines 721-740) or ANN node child by child keeps the net and every root's value |
| Soundness.SoundDistLeft | src/interact/combinators.c:754-771 | Distributing a strict node over the SUP on its left with the other operand behind a fresh DUP keeps the net and every root's value |
| Soundness.SoundDistRight | src/interact/combinators.c:935-947 | The right-hand rules keep the net and every root's value when the left operand is an atom |
| Soundness.SoundMismatch | src/interact/combinators.c:992-994 | Answering 0 for head-normal operands of different kinds, stuck nodes among them, keeps the net and every root's value |
| Patches.PatchedValid | src/interact/combinators.c:523-531 | Any rewiring that moves each surviving word to one slot and builds the rest apart keeps the net linear and acyclic, in-place reuse included |
| Machine.Runtime.StepAt | src/interact/combinators.c:484-1146 | One interaction in the heap buffer is the specified step, and keeps the net invariant and every root's value |
| Machine.Runtime.Interact | src/interact/combinators.c:484-1146 | The dispatcher with its allocations, writes and interaction count does what the rule functions say, for every tag of the model |
| Answers.SumAnswer | src/interact/combinators.c:787-804 | OP2 of two numbers with code 0, 1, 2 answers a number that differs from the sum, difference, product by a multiple of 2^32 |
| Answers.QuotientAnswer | src/interact/combinators.c:787-804 | OP2 with codes 3 and 5 answers quotient and remainder, x = y * q + r with r below y, and 0 for a zero divisor |
| Answers.EqualAnswer | src/interact/combinators.c:787-804 | OP2 with code 4, and EQL, of two numbers answer 1 exactly when they are equal and else 0; any other code answers 0 |
| Answers.TruthAnswer | src/interact/combinators.c:1032-1098 | AND of a number answers its right operand, of 0 it answers 0; OR of 0 answers its right operand, of any other number 1 |
| Answers.ErasedAnswer | src/interact/combinators.c:932-994 | ERA on the left erases EQL, AND and OR; ANY makes EQL answer 1; on the right both count for EQL; head-normal operands of different kinds answer 0 |
| Answers.SideAnswer | src/interact/combinators.c:538-542 | DP0 of a SUP with its own label gets the first branch and DP1 the second, and the other branch stays in the cell |
| Answers.CountAnswer | src/interact/combinators.c:484-1146 | An interaction is counted once, a short cut through an ERA not at all, and where nothing fires the heap and the term stay |
| Machine.Runtime.CommuteDupSup | src/interact/combinators.c:543-560 | Commutation in the buffer allocates one cell and two nodes, reuses the SUP's slot and hands over the sibling's copy |
| Strategy.Progress | src/interact/combinators.c:484-1146 | Below every word that is not head normal the weak-head strategy finds a slot where a rule fires and where EQL's operands are ready; the step is legal if and only if it does not store a pointer twice |
| Termination.FiringLowers | src/interact/combinators.c:484-1146 | Every legal interaction that fires lowers the weights of the net: each slot that is left has at most the weight it had, or less than the redex had, as the redex itself and all allocated slots do |
| Termination.ReductionEnds | src/interact/combinators.c:484-1146 | No sequence of legal interactions that fire, in any order, goes on for ever |
| Termination.ReducesOnce | src/interact/combinators.c:484-1146 | The reducer has one run for a word |
| Termination.ReducerEnds | src/interact/combinators.c:484-1146 | The reducer's run for a root ends, with the root's value kept, in head-normal form or at a redex whose left operand it would store twice |
| DecisionTables.GroupedIsPlain | src/inet/_.c:521-585 | Dropping the paths of the grouped collapse gives the plain collapse, in order |
| DecisionTables.GroupedInOrder | src/inet/_.c:548-578 | Of any two rows the first branches off to the left, at one SUP where it has branch 0 and the other branch 1 |
| DecisionTables.ExactlyOnePath | src/inet/_.c:548-585 | Every label environment follows exactly one recorded path, and that row has the slot the environment picks |
| NetCollapse.CollapseKeeps | src/inet/_.c:521-534 | Collapsing one root, whatever the reducer does, keeps the net and the values of all other roots |
| NetCollapse.PickValue | src/inet/_.c:548-578 | The leaf an environment picks holds, under the environment left over, the value the term selects under it |
| NetCollapse.CollapseDecides | src/inet/_.c:548-585 | After a grouped collapse of a net exactly one recorded path agrees with an environment, and its leaf has the term's value |
| BucketQueues.Bucket.Push | src/inet/_.c:601-615 | A ring buffer push appends, also across wrap-around and doubling |
| BucketQueues.Bucket.Pop | src/inet/_.c:617-622 | A ring buffer pop removes the oldest task |
| BranchTrees.ValuesOfLeaves | src/inet/_.c:521-534 | The values of a term are the leaves of the plain collapse that are not erased, in order |
| BranchTrees.LeafCount | src/inet/_.c:521-534 | The plain collapse has one leaf more, erased ones included, than the term has superpositions |
| OrderedCollapse.BestIsFirst | src/inet/_.c:641-648 | The entry the specification takes has the least key, and is the oldest with that key |
| OrderedCollapse.LowestIsBest | src/inet/_.c:641-648 | The front of the lowest non-empty bucket is the entry that the stable queue takes |
| OrderedCollapse.CollapseOrdered | src/inet/_.c:632-677 | The loop over 64 buckets terminates and returns what the stable priority queue returns, for every term and limit |
| OrderedResults.AllConserves | src/inet/_.c:632-677 | What is stored is, as a multiset, every value of the term with the priority it has by its own path of SUP and INC |
| OrderedResults.LimitCuts | src/inet/_.c:640 | A limit only cuts off the end of the unlimited result |
| OrderedResults.OrderedReturns | src/inet/_.c:632-677 | min(limit, n) terms come back, a sub-multiset of the n non-erased leaves of the plain collapse, all of them when limit is at least n |
| OrderedResults.ReturnedTerms | src/inet/_.c:632-677 | The terms without their priorities are a sub-multiset of the plain collapse's non-erased leaves |
| Priorities.WrappedAgain | src/inet/_.c:650-657 | A task under n > 0 visible INC wrappers that is taken at key k is queued again bare, last, at max(0, k - n) |
| Priorities.WrappedNext | src/inet/_.c:650-657 | Taken at a key above 0 it is the task that is served next |
| Priorities.StoredNumbers | src/inet/_.c:632-677 | Every value of the term is stored with key 32 plus the superpositions minus the visible wrappers on its path, while that number stays within 0 and 63 on the way |
| Priorities.WrappedFirst | src/inet/_.c:650-657 | SUP of INC of v1 and v2 with limit 1 gives v1 |
| Priorities.PlaceReached | src/inet/_.c:632-677 | The path listed with a value leads to that value in the term, false to the first branch and true to the second |
| Priorities.PlacesInOrder | src/inet/_.c:521-534 | Values are listed from left to right |
| OrderedLevels.LevelOrder | src/inet/_.c:662-667 | Without INC the queue serves a level at a time, left to right, at every depth, also when all depths from 31 on share the last bucket |
| OrderedLevels.OrderedByDepth | src/inet/_.c:632-677 | Without INC the result is the first limit values in breadth-first order: sorted by the number of superpositions above a leaf, however deep, and at each depth exactly the leaves of the tree at that depth from left to right |
| OrderedLevels.LevelsAt | src/inet/_.c:521-534 | At every depth breadth-first order has the leaves of the depth-first walk, in its order |
| OrderedNets.TableForks | src/inet/_.c:662-667 | Queueing the two branches of a SUP in the place of its task keeps every environment on exactly one row, with its value |
| OrderedNets.TablePeels | src/inet/_.c:650-657 | Taking INC wrappers off a task keeps every environment on exactly one row, with its value |
| OrderedNets.TurnKeys | src/inet/_.c:650-667 | On a net a task under n wrappers goes back n steps nearer to the front, at 0 at most; the branches of a SUP go last, the first branch first, one step further back, at 63 at most |
| OrderedNetRuns.OrderedDecides | src/inet/_.c:632-677 | At every moment of an ordered collapse of a net, whatever the reducer's schedule, each environment leads to exactly one task or result, and its slot holds the value that the collapsed word selects |
| OrderedNetRuns.OrderedAnswers | src/inet/_.c:632-677 | When the queue is empty each environment leads to exactly one stored result, with its value, if the word selects a value, and to none exactly if it selects an erasure |
| OrderedNetRuns.OrderedEnds | src/inet/_.c:640-674 | The loop over a net ends, however the reducer is scheduled |
| OrderedNetRuns.OrderedNeverStuck | src/inet/_.c:640-674 | While tasks wait the reducer's own run leads to a next turn, unless it meets a left operand that would be stored twice |
| StealingCollapse.NextKeeps | src/inet/_.c:705-749 | Every atomic step of every worker keeps: counter equals tasks queued and in hand, and leaves stored plus leaves to come are constant |
| StealingCollapse.StealKeeps | src/inet/_.c:732-742 | A theft keeps the counter equal to the tasks queued and in hand, and all leaves accounted for |
| StealingCollapse.StolenLeaves | src/inet/_.c:732-742 | The leaves of the oldest task move from the victim to the thief: together the two account for the same leaves |
| StealingCollapse.FoundIsPlain | src/inet/_.c:705-717 | Below a task without USP the workers find the leaves of the plain collapse, in order; a USP is itself a leaf |
| StealingRuns.DealtCounts | src/inet/_.c:796-802 | Round-robin seeding puts every leaf in one deque and makes the counter right |
| StealingRuns.DealtInTurn | src/inet/_.c:796-802 | Worker i of n starts with the tasks i, i + n, i + 2 * n and so on, and with no others |
| StealingRuns.CounterIsExact | src/inet/_.c:694-749 | At every moment of every run the counter is zero if and only if all deques and hands are empty, and then every leaf is stored |
| StealingRuns.ExitMeansDone | src/inet/_.c:744-745 | A worker that leaves leaves nothing behind: all deques empty, nobody busy, every leaf stored exactly as often as it occurs |
| StealingRuns.RunsEnd | src/inet/_.c:719-749 | Every schedule ends: at most four steps per node of the tasks and one per worker change the state |
| StealingRuns.NeverStuck | src/inet/_.c:719-749 | While a worker has not left, some worker can step |
| StealingRuns.ParallelIsPlain | src/inet/_.c:751-847 | The merged result of the workers on the leaves of the plain collapse is a rearrangement of it |
| TreeSum.SumClosedForm | resources/gists/par_tree_sum_bend2_compiled.c:261-299 | Summing build(d, x) is the sum of x * 2^d + i over all i below 2^d, modulo 2^32, although leaf numbers wrap on the way |
| TreeSum.LeafNumber | resources/gists/par_tree_sum_bend2_compiled.c:261-274 | In the tree of build(d, x) the leaf at a path of d turns, read as a binary number i, is number x * 2^d + i modulo 2^32 |
| SeqEval.TotalOfBuild | resources/gists/par_tree_sum_bend2_compiled.c:371-403 | The recursive sum of any tree that build(d, x) describes |
| SeqEval.Evaluator.EvalBuild | resources/gists/par_tree_sum_bend2_compiled.c:419-440 | On a stack of any size from 3 * d words on the trampoline ends, restores the stack pointer, and builds the tree that the recursion describes, keeping older cells |
| SeqEval.Evaluator.EvalSum | resources/gists/par_tree_sum_bend2_compiled.c:442-463 | On a stack of any size from 2 * n words on the trampoline ends, restores the stack pointer, and returns the recursive sum of any finite tree of height n |
| SeqEval.Evaluator.EvalMain | resources/gists/par_tree_sum_bend2_compiled.c:465-478 | Building and summing gives the sum of all leaf numbers modulo 2^32, for every depth that fits the stack |
| Continuations.OrIntoSlot0 | resources/gists/par_tree_sum_bend2_compiled.c:207-208 | Or-ing a tag into byte 0 of the packed word leaves byte 1 alone |
| Continuations.OrIntoSlot1 | resources/gists/par_tree_sum_bend2_compiled.c:207-208 | Or-ing a shifted tag into byte 1 leaves byte 0 alone |
| Continuations.UnpackTags | resources/gists/par_tree_sum_bend2_compiled.c:217-219 | Both tags are read back from the packed word |
| ContinuationSteps.CountKeeps | resources/gists/par_tree_sum_bend2_compiled.c:500-502 | The atomic countdown keeps the invariant: the header counts the open slots, and who takes the last one is the only one to fire |
| ContinuationSteps.FireKeeps | resources/gists/par_tree_sum_bend2_compiled.c:504-513 | Firing a continuation keeps the protocol invariant |
| ContinuationSteps.FireContinues | resources/gists/par_tree_sum_bend2_compiled.c:504-513 | Firing a continuation delivers, to its return address, a value computed from its slots that meets the goal of that address, or the task of its second phase |
| ContinuationRuns.NextKeeps | resources/gists/par_tree_sum_bend2_compiled.c:205-516 | Every atomic step of any worker keeps the protocol invariant |
| ContinuationRuns.FiresOnce | resources/gists/par_tree_sum_bend2_compiled.c:500-506 | In every interleaving no continuation fires twice |
| ContinuationRuns.FiresExactlyOnce | resources/gists/par_tree_sum_bend2_compiled.c:491-516 | Once the result is out every continuation that was ever opened has fired in exactly one step of the run |
| ContinuationRuns.AllFired | resources/gists/par_tree_sum_bend2_compiled.c:491-516 | Once the result is out the continuations that were opened are those that have fired: none is abandoned |
| ContinuationCalls.FiresFilled | resources/gists/par_tree_sum_bend2_compiled.c:499-505 | When a continuation fires its countdown is zero, its slots hold the results of the calls of the very task that opened it (both subtrees of a build, both totals of a sum, the tree of main), and nobody is still going to write to it |
| ContinuationRuns.DoneExactlyWhenQuiet | resources/gists/par_tree_sum_bend2_compiled.c:491-516 | At every moment of every run the result is absent or is the sum of all leaf numbers, and it is present if and only if nobody has anything left to do |
| ContinuationRuns.RunsEnd | resources/gists/par_tree_sum_bend2_compiled.c:520-597 | Every interleaving has at most 18 * 2^d - 8 atomic steps of tasks and continuations |
| ContinuationRuns.NeverStuck | resources/gists/par_tree_sum_bend2_compiled.c:520-597 | Until the result is out some step is possible |
| ContinuationWork.DispatchWork | resources/gists/par_tree_sum_bend2_compiled.c:315-325 | Splitting a task lowers the work that is left |
| ChainWalk.Walker.Walk | src/fuse/materialize.c:36-134 | The walk succeeds if and only if everything the tensor needs is elementwise and fits the tables; it keeps operations ordered and every row computing its own tensor, and its rows are the schedule of the tensor |
| ChainDispatch.RemapOps | src/fuse/materialize.c:547-550 | The in-place loop moves every operation index down to the leaf count and touches nothing else |
| ChainDispatch.RemapKeeps | src/fuse/materialize.c:547-550 | The remapped program computes the same result at every position |
| ChainDispatch.RemapWires | src/fuse/materialize.c:547-550 | The remap leaves every operation on the sources of its tensor |
| Chains.CastsDiffer | src/fuse/materialize.c:31-33 | Casts of one tensor to different dtypes have different values |
| Chains.SourcesDiffer | src/fuse/materialize.c:101-124 | Codes 3 to 14 are fused; the two sources of codes 9 to 14 cannot be exchanged when their values differ |
| ChainDispatch.Plan | src/fuse/materialize.c:535-550 | Planning succeeds if and only if the tensor is elementary, has at most 64 operations and 64 leaves; the program then is the schedule of the tensor, position i computes tensor i's value, and operation i is the one of tensor i on the tensor's own sources in order, with the tensor's dtype for a cast and 0 otherwise |
| ChainDispatch.Allocate | src/fuse/materialize.c:552-569 | Intermediates with a positive consumer counter and no others get new buffers, all different |
| ChainDispatch.CollectSides | src/fuse/materialize.c:588-598 | The first eight positions that qualify |
| ChainOutputs.FusedServes | src/fuse/materialize.c:600-628 | The main output and every collected side output receive their own tensor's value |
| ChainOutputs.FusedRightIff | src/fuse/materialize.c:559-598 | All allocated side buffers are right if and only if all are collected |
| ChainValues.FusedKeepsIff | src/fuse/materialize.c:552-628 | Running the kernel keeps the value of every tensor in the table if and only if every tensor given a side buffer is collected and a pre-assigned output buffer overwrites no other value |
| ChainValues.ChainKeepsIff | src/fuse/materialize.c:545-628 | A planned chain keeps every value if and only if, in the schedule, each tensor with a positive consumer counter is computed somewhere with fewer than eight such places before it, and the output overwrites no other value |
| ChainValues.CountedKeepsIff | src/interact/tensor_ops.c:1206-1207 | With counters that count every deferred reader, the chain's own included, and no output buffer chosen beforehand, a planned chain keeps every value if and only if each tensor but the last is computed at one of the first eight places |
| ChainValues.AtMostNine | src/interact/tensor_ops.c:1206-1207 | When no tensor is computed twice that means at most nine operations |
| ChainValues.CollectedIff | src/fuse/materialize.c:588-598 | All side outputs are served if and only if each tensor with a positive consumer counter is computed somewhere with fewer than eight such places before it, also when tensors are computed several times |
| ChainValues.AtMostEight | src/fuse/materialize.c:588-598 | At most eight such places always suffice, and are needed when no tensor is computed twice |
| ChainValues.NinthIsLost | src/fuse/materialize.c:588-598 | Ten negations in a row, with counters as they are kept and no reader outside: the program that is planned for them, run on the buffers that are allocated, loses a value |
| ChainFallback.RunOneByOne | src/fuse/materialize.c:641-688 | The loop leaves every tensor of the chain in a buffer that holds its value |
| ChainFallback.FallbackKeepsIff | src/fuse/materialize.c:641-688 | The fallback keeps the value of every tensor, with any number of shared intermediates, if and only if a pre-assigned output buffer overwrites no other value |
| ReshapeTargets.ReshapeTarget | src/fuse/_.c:228-252 | The loops with their positions compute the recursive matching, for shapes of any rank |
| ReshapeTargets.ReshapeCommutes | src/fuse/_.c:596-637 | If the matching finds a target, reading the leaf through it at any coordinate hits the element that broadcasting at the unravelled operation coordinate hits |
| ReshapeRefinements.LeafCommutes | src/fuse/_.c:616-633 | So for every leaf that broadcasts to the operation, with the shortcut for leaves of the operation's size |
| ReshapeRefinements.TargetIff | src/fuse/_.c:228-252 | For equal sizes a target is found if and only if the reshape splits the operation's dimensions and the leaf broadcasts to them |
| ReshapeRefinements.LeafTargetIff | src/fuse/_.c:616-629 | A leaf that broadcasts to the operation is given a shape if and only if it has the operation's own shape or the reshape splits the operation's dimensions |
| Moves.ReshapeAxes | src/nn/conv.c:14-16 | A reshape that keeps the size of every axis works axis by axis |
| PoolChain.ChainReads | src/nn/conv.c:247-322 | After each of the nine moves the chain reads, at every place, the element it should |
| PoolChain.ChainRunsIff | src/nn/conv.c:247-322 | All nine moves can be applied in turn if and only if no step exceeds twice its axis plus one |
| PoolPaths.RepeatRunsIff | src/nn/conv.c:247-332 | The same for the whole program on two axes with its last permutation |
| PoolPaths.LongStepFails | src/nn/conv.c:241-294 | On a 1 by 2 input with kernels 1, 2 and steps 4, 1 the program goes out of range |
| PoolPaths.RepeatPool | src/nn/conv.c:247-332 | The repeat, shrink, reshape, permute chain yields windows first and reads element (y * s + ky, x * s + kx) |
| PoolPaths.ViewPool | src/nn/conv.c:53-70 | The strided view addresses the same element, for inputs of any strides |
| PoolPaths.SlideAddress | src/nn/conv.c:53-70 | Every coordinate of the strided view addresses the element that the sliding index map reads |
| PoolPaths.ViewMaskIff | src/nn/conv.c:191-208 | At all coordinates of the view its compound mask agrees with the input's mask if and only if no batch axis is masked, or the windows see nothing but padding |
| PoolPaths.BatchMaskLost | src/nn/conv.c:191-208 | With the first of two 2 by 2 images masked the view takes it for data |
| PoolPadded.PadPool | src/nn/conv.c:334-384 | For windows no longer than their step the pad chain reads the same elements and never the padding |
| WindowCounts.RepeatShape | src/nn/conv.c:32 | Where the repeat chain can be applied its result has every window that fits on an axis and no other: (n - 1) * s + k <= size < n * s + k |
| WindowCounts.PadShape | src/nn/conv.c:32 | So has the result of the pad chain |
| WindowCounts.ViewShape | src/nn/conv.c:32-51 | So has the strided view |
| Convolution.WindowsRead | src/nn/conv.c:430-439 | Reshape, expand and permute of the pooled input read channel g * cin + c of the window |
| Convolution.WeightsRead | src/nn/conv.c:441-443 | The reshaped weights, broadcast, read output channel g * cout + r |
| ConvSums.ViewReads | src/nn/conv.c:424 | The strided view is a pool that reads window elements, for all kernels and strides |
| ConvSums.RepeatReads | src/nn/conv.c:424 | So is the repeat chain, within its domain |
| ConvSums.PadReads | src/nn/conv.c:424 | So is the pad chain, for kernels no longer than their strides |
| ConvSums.TermIs | src/nn/conv.c:406-446 | Every term of the product is the input element or padding zero times the weight of a grouped convolution |
| ConvSums.NthCovers | src/nn/conv.c:447-449 | Every channel and kernel element has its place in the sum |
| ConvOutputs.OutputReshape | src/nn/conv.c:451 | The last reshape puts group g and position r at output channel g * cout + r |
| ConvOutputs.SumIsConvolution | src/nn/conv.c:446-450 | The sum over the three axes taken as one is the nested sum over input channels, kernel rows and kernel columns |
| ConvOutputs.ConvOutput | src/nn/conv.c:390-451 | Element [b, co, y, x] of the tensor after the last reshape is the grouped convolution of the padded input, for any pool that reads windows |
| WindowCounts.OutputWindows | src/nn/conv.c:390-451 | The convolution has the batch, all output channels, and one element for every window that fits on the input with its padding |
| ConvOutputs.ConvByView | src/nn/conv.c:390-451 | So with the strided view, for all sizes, groups, strides and paddings |
| ConvOutputs.ConvByRepeat | src/nn/conv.c:390-451 | So with the repeat chain, wherever it can be applied |
| ConvOutputs.ConvByPad | src/nn/conv.c:390-451 | So with the pad chain, for kernels no longer than their strides |
| ShapeTables.LookupAfterStore | src/tinyhvm.h:604-636 | After a store a lookup finds the tracker just stored, nothing for the location pushed out, and what it found before for every other location |
| ShapeTables.LastOrNothing | src/tinyhvm.h:599-636 | After any sequence of stores a lookup finds the last tracker stored for its location or nothing, and nothing exactly when that store was pushed out |
| ShapeTables.SmallNeverLost | src/tinyhvm.h:599-636 | While all locations are below the size of the table a lookup finds the last tracker stored for its location |
| TableRoom.SixteenNeverLost | src/tinyhvm.h:599-636 | After at most sixteen stores, whatever their locations, a lookup finds the last tracker stored for its location |
| TableRoom.SeventeenthPushes | src/tinyhvm.h:604-617 | The seventeenth location with one home slot pushes the first one out |
| ShapeTables.ShapeTable.SetTracker | src/tinyhvm.h:604-617 | The probe loop over the arrays, with wrap-around and home-slot eviction, is the specified store |
| ShapeTables.ShapeTable.GetTracker | src/tinyhvm.h:627-636 | The probe loop is the specified lookup |
| UseChains.EveryUseResolves | src/ctx/init.c:312-375 | In every run all uses of a term lead through the DUP chain to that term |
| UseChains.EveryPortOnce | src/ctx/init.c:325-373 | In every run both ports of every DUP cell are stored, each in exactly one slot |
| UseChains.TermOnceIff | src/ctx/init.c:320-375 | A used term is stored in one slot only if and only if its first use found room in the probe window or it is used once |
| UseChains.EightAreTracked | src/ctx/init.c:320-321 | Eight terms with one home slot all get an entry |
| UseChains.NinthIsShared | src/ctx/init.c:320-374 | A run of nine terms with one home slot, the ninth used twice, ends with that term stored twice |
| UseChains.UseTable.LinearUse | src/ctx/init.c:312-375 | The method over the heap and the table is the specified use, stale entries and full windows included |
| UseRewrites.SegmentUse | src/ctx/init.c:331-373 | In every run in which slots are also overwritten, for a term with an entry: a use goes on with its term's chain if the newest use is in place and starts afresh otherwise; a use since the last fresh start that has not been overwritten holds the term if it is the only one, and otherwise the port of the chain that is its own |
| UseRewrites.SegmentCell | src/ctx/init.c:346-371 | The cell that such a use made, unless overwritten, holds the term if it is the first cell and DP1 of the cell before otherwise |
| UseRewrites.SegmentResolves | src/ctx/init.c:331-373 | While these cells are in place every such use leads to the term, and from the second one on all of them are DUP ports |
| UseRewrites.PortsStayOnce | src/ctx/init.c:346-371 | No DUP port is ever stored in two slots, whatever has been overwritten |

## Left out

- StepSound: the arms for lambdas, bridges, tensors, variables, unordered superpositions and dynamic labels inside the cited lines are not modelled, and an EQL redex has head-normal operands, as the reducer provides them.
- RunSound: as StepSound, for runs.
- Interact: as StepSound, for the dispatcher.
- SoundCopyNode: APP and MAT nodes, which share the branch, are not modelled.
- SoundMismatch: EQL of two lambdas, decided before, is not modelled.
- SoundDistRight: for a left operand that is not an atom linearity is lost, as StepValidIff states; EqlKeeps and Op2KeepsIff state when the value is kept.
- ReducerEnds: at a redex whose left operand would be stored twice the run is not followed further, since the net is no longer linear after it.
- OrderedNeverStuck: as ReducerEnds, for the reductions inside a collapse.
- RunsEnd: failed pops and steals, spinning, barriers and buffer compaction are not counted as steps, in both modules.
- ParallelIsPlain: the shortcuts for one thread and for few leaves, which return the plain collapse itself, are not modelled.
- Walk: the branch for view operations is not modelled.
- Plan: chains through view operations and reductions are not modelled.
- Allocate: without a reduction the consumer threshold is zero; the threshold of one under a reduction is not modelled.
- CollectSides: as Allocate, for the threshold.
- CountedKeepsIff: the consumer counter is a number; its wrap-around after 255 readers is not modelled.
- Lambda, application, bridges, constructors, tensors, unordered superposition, erasure of a DUP port, transparent projection of tensor operations: not in the net model.
- The rules are modelled on the operands as they are in the heap; the trampoline that reduces operands first is the strategy of `Strategy`, with `Ready` for what EQL relies on.
- C leaves the order of the two allocations in one argument list open; the model allocates left to right.
- Heap exhaustion, and the chunked bump allocators: allocation returns unused addresses.
- The bucket loop, the order of its results and the parallel collapse are modelled on finite trees of head forms, where reducing a word is one step to its head form; on nets the ordered collapse takes tasks in the order of the stable queue.
- Deque operations and counter updates are atomic and sequentially consistent; the deque implementation, spinning, thread start and heap banks are not modelled, nor are the shortcuts.
- The parallel tree sum: barriers and buffer compaction, the task buffer's capacity, and memory orders; a task evaluated sequentially is one atomic step, its evaluator being proved separately. The depth, 27 in the program, is a parameter.
- Saved arguments of continuations: the program never saves any.
- Materialisation: view operations and walking through reshapes, reduce fusion, propagation of buffers to views, gradient flags and backends.
- The tree walker of the fuser with its leaf deduplication: the chain walker is the same construction on tensors.
- Shapes have natural-number sizes and any rank: 32-bit overflow and the rank limit are not modelled.
- Bias, gradient metadata and the choice among the three window paths in thvm_conv2d: the statement holds for each of the three, and which one is taken depends on buffers and links that are not modelled.
- ReshapeTarget is proved for any ranks; ReshapeCommutes, LeafCommutes, TargetIff and LeafTargetIff compare shapes of equal rank, as the call site uses them.
- Shape tables store opaque trackers; keys are natural numbers.
- TermOnceIff: counts are for runs of uses alone; once slots are overwritten SegmentUse says what the uses since the last fresh start hold. What is written over a slot is any word but a DUP port.
- Lazy and eager instantiation, symbolic gradients, and the type checker's parser and printer.
