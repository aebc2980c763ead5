# Plantlang: verified models

Dafny models of the hardest parts of Plantlang, with proofs of what they promise.

- **Automatic differentiation.** The first-order engine (`runtime/c/plant_autograd.c`):
  tensors as shape plus row-major reals, the tape as a sequence of nodes, GRAD as the
  in-place walk with its side table and reference counts. Forward meaning is evaluated on
  dual numbers, so derivatives are never assumed: every backward branch is proved to be
  the transpose of the dual tangent, and the walk over a whole tape to be the adjoint of
  running the recorded program on dual numbers (`Arith`, `Shapes`, `Sums`, `Tape`, `Rules`,
  `ConvRule`, `MatMulRule`, `AxisRule`, `NodeRule`, `Adjoint`, `Sweep`, `DualRun`, and by
  multi-indices in `ForwardLaws`; what GRAD answers in `GradAnswer`; loops in
  `Kernels`, `AxisKernel`, `ConvKernel`; state in `Autograd`). LAYERNORM, BATCHNORM and
  SOFTMAX have their loops (`GroupLoop`, `NormKernel`, `BatchNorm`, `SoftmaxKernel`) and
  adjoints, by group (`NormRule`) and over whole tensors (`NormWhole`); `GradBuffers` is
  for loops whose operands may share a buffer. The second engine
  (`runtime/c/plant_ad2.c`) walks frames with one gradient map: its value (`Ad2Rule`,
  `Ad2`), the operations it performs and records while it walks (`Ad2Tape`, `Ad2Pass`,
  `Ad2Sound`), when a second pass over them is the second derivative (`Ad2Second`,
  `Ad2Cover`, `Ad2Twice`), an input where it is not (`Ad2Lost`), and the engine's state
  (`Ad2Engine`, `Ad2Run`).
- **Native code generation** (`core/llvm_codegen.js`). The expression compiler
  (`ExprSyntax` in `Expr.dfy`, `ExprGrammar`, `ExprSpec`, `ExprCode`, `ExprProof`,
  `ExprMeaning`), a machine for the
  emitted lines with registers, labels and the depth arenas (`Ir`, `Machine`), and
  CREATE, SET, INCREASE, DECREASE, IF, CYCLE and SEASON with a simulation theorem
  (`FlowSpec`, `Flow`, `FlowRun`, `FlowStore`, `FlowCheck`, `FlowProof`, `FlowLabels`,
  `FlowProgram`, `FlowArrivals`, `FlowTidy`, `FlowErrors`, `FlowMeaning`). The inline MAP (`MapTable`) and the layout
  of SPECIES (`Species`).
- **Strings** (`runtime/runtime.c`, `runtime/c/plant_compat.h`): the two-pass split, join
  and replace (`Strings`).
- **Imports** (`core/parser.js`): the recursive resolver with its shared stack (`Imports`).

Methods follow the source's loops and mutations; each is tied by its `ensures` to a
specification function, and the lemmas are about that function.

## Where the code does less than it promises

- Growing a MAP scans the first `len` buckets, so bindings in later buckets are lost;
  `MapTable.GrowthKeepsExactly` says exactly which survive and `MapTable.LosingRun` is a run
  of seven puts that loses one.
- In the second engine MUL and DIV branch on the operands' sizes, not their shapes;
  `Ad2Rule.ProductShapes` gives the exact condition, and `Ad2.ColumnGradient` is an input
  on which GRAD_HO returns a gradient of another shape than its tensor's.
- Second derivatives are documented as complete (`docs/ADV2_LIMITATIONS.md`). But an
  operation is recorded only when an operand is tracked, and the broadcast copies the
  second engine makes are not: the square of a broadcast divisor is never recorded, and
  next to the seed no product with a broadcast operand is. `Ad2Cover.NodesCover` says
  exactly when the pass records all it computes from w, `Ad2Twice.SecondGradHo` that the
  second derivative is then right, `Ad2Second.GradHoIsDerivativeIff` when it is in any
  case, and `Ad2Lost.SecondDerivativeLost` is the total of a / b, whose second derivative
  in b comes out as 0.
- A loop pass is to reset the deeper arenas its body entered. It empties those down from
  the depth of the body's last statement in program order. `FlowTidy.TickTidy`: a body
  leaks nothing if no IF in it has an arm that ends deeper than the IF does.
  `FlowTidy.DeepArmLeaks`: what such an arm leaves there when it is taken stays.
  `FlowProgram.LeakyPass` is a body that leaks on every pass.
- For delimiters of more than one byte, splitting a join may cut elsewhere;
  `Strings.SplitJoinIff` is the exact condition, `Strings.SplitJoinOverlap` an input.

## What the model takes as given

- Of `runtime/c/plant_tensor.c` the rule that decides what is recorded is modelled
  (lines 561-567), and the values of tensor operations: `plant_tensor_bc_index` aligns
  shapes at the right and repeats extents of 1, `plant_tensor_bcast_reduce` sums along
  that map. Its storage, strides and views are not part of this model.
- In the second engine tensors have at least one dimension; the seed, the zeros of a new
  gradient entry and the mask of RELU are fresh tensors of the given values. Forwarding
  recorded operations to the first engine's hook is not part of this model.
- `**` is on the rung of `*`, as `docs/TECHNICAL.md` says, and associates to the left; AND
  and OR evaluate both operands.
- Numbers of type double are reals. An element divided by zero counts as 0 in forward and
  backward of DIV, as the guards of the division helpers do; in compiled code a zero
  divisor has no value.
- The square root, the exponential and the power function enter through an argument or
  through their defining equations.
- The one-element placeholder of a scalar reduction is tracked in the model; its flag is
  never consulted.
- Tensors have at most 16 dimensions. Well-formed tapes are those the forward operations
  record: inputs exist before use, each result is new, and shapes fit.
- Statements carry the depth written before them; a checked program uses names only where
  they are in view, does not create a name in view again, and puts bodies no shallower
  than their statement. The structured run stops where a variable would not fit its arena.

## Model

| member | source | states |
|---|---|---|
| DualRun.GradIsAdjointOfDualRun | runtime/c/plant_autograd.c:350-361 | for every well-formed recorded tape, any root and any leaf tangent, the seeded sweep pairs with the leaf tangents exactly as running the recorded program on dual numbers pairs with the seed; nothing recorded is consulted by the dual run |
| Sweep.ReverseIsAdjoint | runtime/c/plant_autograd.c:360-753 | the same against forward tangents: seed times the root's tangent equals the sum over all leaves of returned gradient times tangent, with shared and repeated operands, broadcasting and untracked tensors |
| Sweep.GradientIsDerivative | runtime/c/plant_autograd.c:744-753 | element i of the gradient returned for w is the derivative of the seeded root in direction (w, i), and 0 when w has no entry |
| Sweep.BackwardTotal | runtime/c/plant_autograd.c:359-742 | every step of the backward walk keeps the total pairing of gradients and tangents; retired results leave it |
| Sweep.SweepNodeTotal | runtime/c/plant_autograd.c:360-742 | one node hands what its result's gradient pairs with to its operands, gated or not, whatever else the table holds |
| Sweep.ForwardConsistent | runtime/c/plant_autograd.c:274-301 | tangents computed along a tape stay consistent with every node, and never leak into untracked tensors |
| Adjoint.NodeAdjoint | runtime/c/plant_autograd.c:360-668 | for every recorded operation: d against the result's dual tangent equals the contributions of its branch against the operands' tangents, from the shape conditions the forward operation guarantees alone |
| NodeRule.BroadcastAdjoint | runtime/c/plant_autograd.c:124-134 | reducing d onto a broadcast operand is the transpose of broadcasting, for all compatible shapes |
| NodeRule.QuotientPoint | runtime/c/plant_autograd.c:158-204 | the two division helpers are the partial derivatives of the quotient, with the guards' value 0 at a zero divisor |
| NodeRule.VarianceTangent | runtime/c/plant_autograd.c:390-423 | the variance branch's weight 2(x - mean)/M is the whole derivative: the mean's own tangent drops out |
| AxisRule.AxisAdjoint | runtime/c/plant_autograd.c:390-423 | giving each member of an axis group the group's gradient times its weight is the transpose of the weighted reduction, for every axis of every shape |
| MatMulRule.GradAAdjoint | runtime/c/plant_autograd.c:608-626 | dA of MATMUL is the transpose of the product in A, for all matrix sizes |
| MatMulRule.GradBAdjoint | runtime/c/plant_autograd.c:627-634 | dB of MATMUL is the transpose of the product in B |
| ConvRule.ConvAdjoint | runtime/c/plant_autograd.c:568-607 | the CONV2D backward loops are the exact adjoints of the bilinear forward formula in the input, the kernel and the bias, for every stride, padding and shape |
| DualRun.ForwardRe | runtime/c/plant_autograd.c:360-668 | the value part of every dual operation is independent of the tangents, so the dual run recomputes the recorded values |
| ForwardLaws.ConvAt | runtime/c/plant_autograd.c:569-606 | element (i, j, oh, ow) of CONV2D is the bias of j plus, over channels and kernel positions, x at [i, c, oh * stride - pad + ki, ow * stride - pad + kj], 0 outside, times k at [j, c, ki, kj], read through row-major multi-indices only |
| ForwardLaws.ElementwiseAt | runtime/c/plant_tensor.c:518-560 | ADD, SUB, MUL and DIV at a multi-index combine the operands' elements at that index with trailing dimensions aligned and extents of 1 repeated |
| ForwardLaws.MatMulAt | runtime/c/plant_autograd.c:608-634 | element (i, j) of MATMUL is the sum over l of a at [i, l] times b at [l, j] |
| ForwardLaws.TransposeAt | runtime/c/plant_autograd.c:654-662 | element (i, j) of TRANSPOSE is the element at [j, i] |
| ForwardLaws.AxisReduceAt | runtime/c/plant_autograd.c:390-423 | SUM, MEAN and VARIANCE along an axis keep the indices before and after it and run over the axis itself |
| ForwardLaws.TotalAt | runtime/c/plant_autograd.c:381-389 | SUM and MEAN run over all elements |
| ForwardLaws.SpreadAt | runtime/c/plant_ad2.c:237-256 | a broadcast copy holds at each multi-index the source's element at the aligned index |
| ForwardLaws.SumOntoAt | runtime/c/plant_ad2.c:258-278 | a sum onto a smaller shape adds up, at each index, the elements whose own index aligns with it, and no others |
| ForwardLaws.ProductExpands | runtime/c/plant_autograd.c:350-361 | the tangent of a product of duals is its first-order coefficient: what is left is a multiple of the square of the step |
| ForwardLaws.QuotientUndoes | runtime/c/plant_autograd.c:158-204 | the dual quotient times the divisor is the dividend, and a zero divisor gives 0 |
| ForwardLaws.ReluExpands | runtime/c/plant_autograd.c:345-361 | the dual rectifier agrees with max(0, x) for every step that does not cross 0 |
| Shapes.Advance | runtime/c/plant_ad2.c:250-254 | one turn of the odometer moves the multi-index from the i-th to the (i+1)-th position in row-major order, carries included |
| Kernels.BcastReduce | runtime/c/plant_ad2.c:258-278 | the reducing odometer loop leaves in the new buffer the sum, per position of the target shape, of everything broadcast from it |
| Kernels.AccReduced | runtime/c/plant_autograd.c:124-134 | target grows by sign times the reduced gradient, in place; incompatible shapes leave it alone |
| Kernels.AccReducedMul | runtime/c/plant_autograd.c:136-156 | target grows by the reduction of d times the broadcast other operand |
| Kernels.AccReducedDivA | runtime/c/plant_autograd.c:158-179 | target grows by the reduction of d / b, zero divisors giving 0 |
| Kernels.AccReducedDivB | runtime/c/plant_autograd.c:181-204 | target grows by the reduction of -(d a) / (b b) |
| Kernels.AccElementwise | runtime/c/plant_autograd.c:377-380 | target grows elementwise by the branch's factor times d |
| Kernels.AccTotal | runtime/c/plant_autograd.c:381-389 | every element grows by the scalar gradient, scaled by 1/size for MEAN |
| Kernels.AccTranspose | runtime/c/plant_autograd.c:654-662 | the double loop adds the transposed gradient |
| Kernels.AccMatA | runtime/c/plant_autograd.c:608-626 | the triple loop adds d times B transposed, in place |
| Kernels.AccMatB | runtime/c/plant_autograd.c:627-634 | the triple loop adds A transposed times d, in place |
| AxisKernel.AccAxis | runtime/c/plant_autograd.c:390-423 | the outer, inner and reduced loops of SUM, MEAN and VAR along an axis add exactly the weighted share to every member |
| AxisKernel.Extent | runtime/c/plant_autograd.c:399-402 | the extent loops compute outer, reduced and inner sizes of the shape around the axis |
| ConvKernel.ConvBackward | runtime/c/plant_autograd.c:568-607 | the seven nested loops fill dX, dK and db in place with the three adjoint sums, skipping padded taps and zero gradients; the buffers may coincide |
| Autograd.Engine.Record | runtime/c/plant_autograd.c:274-301 | a recorded node becomes the head, each tensor gains a reference for each place that names it, a scalar reduction gets a placeholder with two, and the tape's values stay true |
| Autograd.Engine.RecordConv | runtime/c/plant_autograd.c:253-272 | the same for CONV2D with its optional bias |
| Autograd.Engine.Push | runtime/c/plant_autograd.c:206-224 | the node is appended and every tensor it names gains one reference for each of the four places that name it; values stay true |
| Autograd.Engine.Clear | runtime/c/plant_autograd.c:303-316 | every reference of tape and pseudo list is dropped: the counts are exactly the outside ones |
| Autograd.Engine.GradOrZero | runtime/c/plant_autograd.c:101-108 | a tensor's buffer is found, or created zeroed and entered, and no other entry moves |
| Autograd.Engine.AddSlot | runtime/c/plant_autograd.c:362-668 | one in-place accumulation is the specified contribution added to the operand's entry |
| Autograd.Engine.AddConv | runtime/c/plant_autograd.c:568-607 | the three in-place CONV2D accumulations together are the specified ones |
| Autograd.Engine.Sweep | runtime/c/plant_autograd.c:350-742 | the in-place walk from head to first node ends with the side table of the functional sweep |
| Autograd.Engine.Grad | runtime/c/plant_autograd.c:319-762 | the answer of SpecAnswers, and state: a retained success, a null w and an empty tape leave tape, pseudo list and counts untouched, any other outcome clears them to the outside counts, and the side table is empty afterwards |
| Autograd.Engine.GradRetain | runtime/c/plant_autograd.c:770-772 | GRAD with an explicit retain flag gives the same answer for the last node's result |
| GradAnswer.SpecAnswers | runtime/c/plant_autograd.c:319-762 | what GRAD answers, said without the sweep: element i for w is the derivative of the total of the root, the given loss tensor if one is used and else the last node's result, by running on dual numbers what was recorded after w; each error exactly under its own check, a loss mismatch within one part in 10^9, and w not in graph exactly when no chain of operands leads from the root to w |
| GradAnswer.BackwardReaches | runtime/c/plant_autograd.c:350-742 | the sweep leaves an entry for a tracked w exactly when some seeded tensor leads down to it through the tape's operands |
| GradAnswer.EntryIsDerivative | runtime/c/plant_autograd.c:744-753 | for any tracked w, intermediate results included, each element is the derivative by the dual run of the nodes after w's own, from any data in the tensors they produce |
| GradAnswer.RecordedSnoc | runtime/c/plant_autograd.c:274-301 | a node whose result holds its forward value keeps the tape's values true |
| NormRule.NormAdjoint | runtime/c/plant_autograd.c:477-567 | within one row or channel, dx, dgamma and dbeta of the compact formulas are the exact adjoint of gamma (x - mean) / sqrt(var + eps) + beta on dual numbers, the deviation entering only through s s (var + eps) = 1 |
| NormRule.NormDxSumsToZero | runtime/c/plant_autograd.c:519-524 | a normalised group's input gradient sums to zero for every incoming gradient, scale and inverse deviation |
| NormRule.SoftmaxAdjoint | runtime/c/plant_autograd.c:673-701 | out (d - sum out d) is the exact adjoint of softmax on dual numbers, the exponential entering only through its own derivative |
| NormRule.SoftmaxDxSumsToZero | runtime/c/plant_autograd.c:673-701 | the slice's gradient sums to zero when the outputs sum to one |
| NormRule.SoftSumsToOne | runtime/c/plant_autograd.c:673-701 | the outputs of a forward softmax do sum to one |
| NormKernel.LayerNormBackward | runtime/c/plant_autograd.c:529-567 | the row loops give every element its row's gradient and gamma and beta the shares of all rows, in place, each buffer optional and any of x, gamma and beta one tensor |
| NormKernel.LayerNormRowSumsToZero | runtime/c/plant_autograd.c:559-566 | each LAYERNORM row's added gradient sums to zero |
| NormKernel.RowSums | runtime/c/plant_autograd.c:550-558 | the second row loop computes the two sums of the formula and adds the row's shares to gamma and beta |
| BatchNorm.BatchNormBackward | runtime/c/plant_autograd.c:477-528 | the channel loops give every element its channel's gradient and gamma and beta the channel's sums, in place, any of x, gamma and beta one tensor |
| BatchNorm.ChannelLayout | runtime/c/plant_autograd.c:504-525 | the places the nested batch, height and width loops visit are all positions of the tensor, each once and in one channel |
| NormWhole.LayerNormAdjoint | runtime/c/plant_autograd.c:529-567 | over the whole tensor: any d against the layer's dual tangent equals what the loops add for x, gamma and beta against their tangents, the deviation being any function with s s v = 1 for positive v |
| NormWhole.BatchNormAdjoint | runtime/c/plant_autograd.c:477-528 | the same for BATCHNORM over all channels |
| NormWhole.SoftmaxWholeAdjoint | runtime/c/plant_autograd.c:669-701 | the same for SOFTMAX over all slices of a vector, the rows or the columns |
| NormWhole.ChannelsAt | runtime/c/plant_autograd.c:487-525 | the member of channel c at batch item b, row y and column x is the element at [b, c, y, x] |
| NormWhole.RowsAt | runtime/c/plant_autograd.c:550-566 | row r's element i is the element at [r, i], and a column slice's at [i, r] |
| NormWhole.VarIsSpread | runtime/c/plant_autograd.c:500-502 | the variance computed from the two sums is the mean squared deviation, and so never negative |
| GroupLoop.SumByGroup | runtime/c/plant_autograd.c:504-525 | where groups' places are all positions, each once, a sum over the buffer is the sum of the groups' sums |
| BatchNorm.BatchNormChannelSumsToZero | runtime/c/plant_autograd.c:516-525 | each BATCHNORM channel's added gradient sums to zero |
| SoftmaxKernel.SoftmaxBackward | runtime/c/plant_autograd.c:669-701 | vector, row and column slices each receive out (d - sum), in place, slices untouched by one another |
| SoftmaxKernel.SoftmaxSliceSumsToZero | runtime/c/plant_autograd.c:673-701 | a slice whose outputs sum to one receives a gradient that sums to zero |
| Ad2.TapedRule | runtime/c/plant_ad2.c:376-477 | on every regular node, whichever of its tensors are tracked and broadcast copies and axis sums included, the taped rule's contributions are the first engine's with no operand skipped, in the operands' own shapes |
| Ad2Rule.ProductShapes | runtime/c/plant_ad2.c:400-419 | contributions of MUL and DIV have their operands' shapes if and only if the operands differ in size or agree in shape with the result |
| Ad2Rule.ColumnTimesRow | runtime/c/plant_ad2.c:403-405 | a [2,1] by [1,2] product takes the equal-size branch and hands the column a 2 x 2 gradient |
| Ad2.ColumnGradient | runtime/c/plant_ad2.c:403-405 | that shape reaches the caller: for the total of such a product GRAD_HO returns a 2 x 2 gradient for the column |
| Ad2Rule.AxisSumIdentity | runtime/c/plant_ad2.c:379-386 | axis_sum onto the shape a tensor already has is the identity |
| Ad2.BcastAxisSumAdjoint | runtime/c/plant_ad2.c:237-278 | bcast and axis_sum are adjoint for every pair of broadcast-compatible shapes |
| Ad2.BcastLoop | runtime/c/plant_ad2.c:237-256 | the broadcasting odometer loop fills the result with the broadcast source |
| Ad2.BackwardConcat | runtime/c/plant_ad2.c:655-670 | a sweep over two tapes in a row is the sweep over the later, then over the earlier |
| Ad2.WalkIsOneSweep | runtime/c/plant_ad2.c:655-670 | walking any number of frames from top to bottom with one shared map equals one reverse sweep over the concatenated frames that skips no operand, for tensors of any flags, so for the frames GRAD_HO itself pushes |
| Ad2.WalkIgnoresFlags | runtime/c/plant_ad2.c:367-605 | nothing the walk does depends on which tensors are tracked |
| Ad2.GradHoIsFirstOrder | runtime/c/plant_ad2.c:615-679 | GRAD_HO returns what the first engine's sweep over the concatenated frames leaves for w when no operand is gated, zeros when it has no entry; no flag of any tensor but w matters |
| Ad2.HigherOrderGradIsDerivative | runtime/c/plant_ad2.c:615-679 | so each element returned at a leaf is the derivative of the top frame's root through all the frames' nodes, those of pushed frames included |
| Ad2.GradHoErrors | runtime/c/plant_ad2.c:615-640 | each error exactly under its own check: w not tracked, no frame, two derivatives taken already, nothing recorded; any other refusal is one of the rules' own |
| Ad2Tape.EmittedTop | runtime/c/plant_ad2.c:56-72 | what operations offer a recording top frame becomes its nodes, newest first, and no other frame changes; without a recording frame nothing does |
| Ad2Pass.NodesFollow | runtime/c/plant_ad2.c:367-605 | performing a frame's rules as tensor operations, each of which may be recorded, gives node for node the gradients of the walk over values, and stops where it stops, with its message |
| Ad2Pass.FramesFollow | runtime/c/plant_ad2.c:655-670 | the same over all frames with the one shared map |
| Ad2Sound.PerformSure | runtime/c/plant_tensor.c:561-568 | every operation of a rule extends the log soundly: its result is a new tensor of the right shape holding the operation's forward value, it reads older tensors only, and what was logged before is as it was |
| Ad2Sound.NodesRun | runtime/c/plant_ad2.c:367-605 | on the nodes both engines handle alike the pass never stops, what it pushes is a well-formed tape, and the tensors with a gradient are those the root leads to |
| Ad2Second.TapeAccount | runtime/c/plant_ad2.c:615-679 | for every log of recorded and unrecorded operations: the root's tangent through all of them pairs with the seed as the gradients of the recorded ones pair with the tangents of leaves and of unrecorded results |
| Ad2Second.GradHoIsDerivativeIff | runtime/c/plant_ad2.c:615-679 | the element GRAD_HO returns is the dual run's derivative if and only if what the recorded part missed is 0, and it is where everything computed from w was recorded |
| Ad2Second.IndependentRests | runtime/c/plant_ad2.c:615-679 | what does not depend on the moved tensors has tangent 0 through any well-formed log |
| Ad2Cover.NodesCover | runtime/c/plant_ad2.c:400-460 | the backward pass records everything it computes from w if and only if no node the root leads to is a broadcasting quotient whose divisor depends on w, or a broadcasting product or quotient at the root itself with an operand that does |
| Ad2Cover.LossyDiv | runtime/c/plant_ad2.c:446-457 | a reached broadcasting quotient whose divisor depends on w always leaves a result computed from w unrecorded |
| Ad2Cover.LossyMul | runtime/c/plant_ad2.c:402-413 | and so does a broadcasting product next to the untracked seed |
| Ad2Twice.PassCovers | runtime/c/plant_ad2.c:615-679 | the first GRAD_HO of any program goes through, and the condition above decides whether it recorded everything computed from w |
| Ad2Twice.FirstResult | runtime/c/plant_ad2.c:668-679 | the tensor the first GRAD_HO leaves is the first derivative the walk over values returns |
| Ad2Twice.SecondGradHo | docs/ADV2_LIMITATIONS.md:26-29 | GRAD_HO of the total of a GRAD_HO result, over the frames the first one really pushed: equal to the derivative by the dual run of everything computed if and only if nothing was missed, and so whenever no node the root leads to is of that kind |
| Ad2Lost.SecondDerivativeLost | docs/ADV2_LIMITATIONS.md:26-29 | for the total of a / b with a of two elements, b of one and b not 0, the second GRAD_HO returns 0 for b, where the derivative is 2 a0 / b^3 + 2 a1 / b^3 |
| Ad2Engine.Engine.Operate | runtime/c/plant_tensor.c:536-569 | an operation creates its result, offers itself to the recording hook if and only if an operand is tracked, and then marks the result tracked |
| Ad2Engine.Engine.Accumulate | runtime/c/plant_ad2.c:217-234 | accumulating adds to the entry or to tracked zeros by a recorded addition, drops error tensors and survives a failing addition |
| Ad2Engine.Engine.BackpropNode | runtime/c/plant_ad2.c:371-605 | one node's branch performs its rule's operations in the source's order on memory, frames and gradient map, and returns its error message |
| Ad2Engine.Engine.BackpropNodes | runtime/c/plant_ad2.c:367-605 | one frame is walked head first, stopping at the first error |
| Ad2Engine.Engine.BackpropFrames | runtime/c/plant_ad2.c:655-670 | the frames are walked from the top down and frozen one by one, while the pushed frame receives exactly what the pass records |
| Ad2Engine.Engine.Grad | runtime/c/plant_ad2.c:615-679 | every error case and its message, the level gate, the value returned, the frozen frames, the pushed frame with the nodes recorded, and an empty map afterwards |
| Ad2Engine.Engine.TensorSum | runtime/c/plant_tensor.c:1088-1096 | TENSOR_SUM returns the total and records it if and only if the tensor is tracked |
| Ad2Tape.TotalAdds | runtime/c/plant_tensor.c:1088-1096 | the total of nothing is 0, of one element the element, and totals add up over concatenation |
| Ad2Engine.Engine.Clear | runtime/c/plant_ad2.c:170-178 | clearing drops every frame |
| Ad2Run.SecondDerivative | docs/ADV2_LIMITATIONS.md:26-29 | GRAD_HO, TENSOR_SUM and GRAD_HO again on one engine end with the answer SecondGradHo is about, the top frame being of level 2 |
| Ad2Run.ThirdRefused | docs/ADV2_LIMITATIONS.md:34-37 | a further GRAD_HO is refused with the documented error and changes nothing |
| ExprSyntax.ParseRender | core/llvm_codegen.js:448-580 | the ladder reads any rendering of any tree back as that tree at every rung, whatever follows it, as long as what follows continues no rung from there up |
| ExprSyntax.ReadsBack | core/llvm_codegen.js:413-417 | a whole rendering is read back as its tree and all its tokens are consumed; ** sits on the rung of * and associates to the left |
| ExprGrammar.Grammar | core/llvm_codegen.js:448-580 | for every token sequence and tree: the ladder reads the whole sequence as the tree, without an error, if and only if the grammar written on tokens, rung by rung, derives it |
| ExprGrammar.TighterLeft | core/llvm_codegen.js:448-535 | a op1 b op2 c is a op1 (b op2 c) whenever op2 binds tighter: OR, then AND, then comparisons, then + and -, then * / % and ** |
| ExprGrammar.TighterRight | core/llvm_codegen.js:448-535 | and a op2 b op1 c is (a op2 b) op1 c |
| ExprGrammar.LeftToRight | core/llvm_codegen.js:448-535 | operators of one rung take their operands from the left |
| ExprGrammar.NotBinds | core/llvm_codegen.js:480-489 | NOT takes a whole comparison, sum or product and stops before AND and OR |
| ExprGrammar.MinusBinds | core/llvm_codegen.js:529-535 | a minus sign takes one atom, on either side of an operator |
| ExprCode.ExprCompiler.CompileExpr | core/llvm_codegen.js:413-417 | the one-pass compiler emits the code and errors of the tree the ladder reads, for every token sequence, and for a sentence of the grammar those of the tree the grammar gives it |
| ExprCode.ExprCompiler.ParseOr | core/llvm_codegen.js:448-461 | the OR rung's loop computes the left-associated tree's code |
| ExprCode.ExprCompiler.ParseAnd | core/llvm_codegen.js:463-476 | the AND rung's loop likewise |
| ExprCode.ExprCompiler.ParseNot | core/llvm_codegen.js:478-487 | NOT recurses on its own rung |
| ExprCode.ExprCompiler.ParseComparison | core/llvm_codegen.js:489-498 | at most one comparison, which does not chain |
| ExprCode.ExprCompiler.ParseAdditive | core/llvm_codegen.js:500-510 | the additive rung's loop likewise |
| ExprCode.ExprCompiler.ParseMultiplicative | core/llvm_codegen.js:512-525 | the multiplicative rung's loop, powers included, likewise |
| ExprCode.ExprCompiler.ParseUnary | core/llvm_codegen.js:527-533 | unary minus recurses on its own rung |
| ExprCode.ExprCompiler.ParseAtom | core/llvm_codegen.js:535-580 | literals, loads, parentheses and each of the four malformed cases |
| ExprProof.CompiledExpression | core/llvm_codegen.js:413-681 | for every well-typed NUM/SCL/FACT tree rendered to tokens: all consumed, no error, new lines in SSA form, the right type tag, and from any store and registers the result operand holds the tree's value; the code gets stuck exactly when the tree has none |
| ExprProof.CompYields | core/llvm_codegen.js:582-681 | the same for trees in the middle of other code: earlier registers keep their values |
| ExprProof.CompTags | core/llvm_codegen.js:587-660 | a well-typed tree compiles without an error to an operand of its type, promoted and divided as the language says |
| ExprProof.CompSsa | core/llvm_codegen.js:448-680 | every compiled expression, malformed ones included, is straight-line code whose new registers are defined once, in order, before use |
| ExprProof.ArithYields | core/llvm_codegen.js:587-620 | two NUM operands compute with wrap-around, any SCL operand promotes both |
| ExprProof.CompareYields | core/llvm_codegen.js:661-681 | comparisons promote likewise and yield a FACT |
| ExprProof.PowYields | core/llvm_codegen.js:641-653 | NUM powers go through the real power and back, toward zero, and have no value out of range |
| ExprMeaning.CompiledSentence | core/llvm_codegen.js:413-580 | for every well-typed sentence of the grammar the code leaves the value of its tree, and gets stuck only where it has none |
| ExprMeaning.OrAndValue | core/llvm_codegen.js:448-476 | a OR b AND c has the value a or (b and c), and a AND b OR c the value (a and b) or c |
| ExprMeaning.SumProductValue | core/llvm_codegen.js:503-527 | a + b * c has the value a + (b c) |
| ExprMeaning.NumArithmetic | core/llvm_codegen.js:602-640 | +, - and * of NUM values are the sums, differences and products modulo 2^64, in 64 signed bits |
| ExprMeaning.NumComparison | core/llvm_codegen.js:661-690 | each comparison of NUM values is the order of the numbers |
| ExprMeaning.SclArithmetic | core/llvm_codegen.js:587-653 | with an SCL operand +, -, * and ** are real, and % has no value |
| ExprMeaning.SclComparison | core/llvm_codegen.js:661-690 | and comparisons are the order of the reals |
| ExprMeaning.Division | core/llvm_codegen.js:621-628 | / is real for all operands: the quotient times the divisor is the dividend, and a zero divisor has no value |
| ExprMeaning.RemainderIs | core/llvm_codegen.js:629-640 | a % b differs from a by a multiple of b, is smaller than b and has the sign of a; it has no value for b = 0 and for the one overflow |
| ExprProof.EvalTyped | core/llvm_codegen.js:587-660 | values have their tree's static type |
| FlowProof.SimBlock | core/llvm_codegen.js:3122-3160 | running the flat code of any checked statement list follows its structured run: same variables, same arena offsets, earlier registers untouched |
| FlowProof.SimStmt | core/llvm_codegen.js:3122-3146 | the same for one statement, after the arenas deeper than it are emptied |
| FlowProof.SimArms | core/llvm_codegen.js:3545-3577 | from any arm's condition label the IF's code reaches the end label as the first true arm says |
| FlowProof.SeasonLoop | core/llvm_codegen.js:3648-3684 | from the condition label a SEASON's code reaches its end for any number of passes |
| FlowProof.CycleLoop | core/llvm_codegen.js:3600-3645 | from the condition label a CYCLE's code reaches its end for any number of passes, with the structured run's variables and offsets and with loop variable, bound and step where they were put |
| FlowArrivals.EveryArrival | core/llvm_codegen.js:3600-3640 | at the machine's i-th arrival at the condition, for every i whose earlier tests let a pass begin and whether or not the loop ends, it holds the i-th world; the loop depth's offset is what it was at the first arrival, the loop variable is where it was, and nothing the pass from there allocates shares a byte with it |
| FlowArrivals.RunFromArrival | core/llvm_codegen.js:3600-3640 | a loop's run is its run from any of its arrivals |
| FlowArrivals.BlockHanded | core/llvm_codegen.js:289-320 | a block allocates nothing in arenas shallower than its depth and, in the arena of its depth, only above what that held when the block began, which the run keeps |
| FlowProof.SimCycleHead | core/llvm_codegen.js:3579-3600 | start, bound and step are computed once, in that order, and the loop variable gets bytes of its own |
| FlowProof.SimTick | core/llvm_codegen.js:3611-3635 | one pass of a loop body leaves every variable in view at the head where it was and the loop depth's offset at its saved value |
| FlowProof.SimCreate | core/llvm_codegen.js:3207-3318 | CREATE allocates fresh bytes at the offset, evaluates, converts, stores and brings the name into view |
| FlowProof.SimSet | core/llvm_codegen.js:3414-3427 | SET stores the value converted to the declared type and changes no other variable |
| FlowProof.SimIncDec | core/llvm_codegen.js:3429-3451 | INCREASE and DECREASE store the mixed sum or difference |
| FlowStore.GoodCreate | core/llvm_codegen.js:289-320 | a new variable's bytes are disjoint from those of every variable in view, at every depth |
| FlowStore.GoodLower | core/llvm_codegen.js:3627-3634 | resetting deeper arenas and restoring the saved offset leaves every variable in view below its offset |
| FlowStore.GoesAlloc | core/llvm_codegen.js:289-320 | the six emitted lines hand out the old offset and advance it by the type's size |
| FlowLabels.ProgramLabels | core/llvm_codegen.js:3545-3684 | no label is emitted twice and every branch of a program goes to an emitted label |
| FlowLabels.StmtLabels | core/llvm_codegen.js:3545-3684 | a statement only emits labels with new numbers and leaves no branch target open |
| FlowMeaning.TriangleMeaning | core/llvm_codegen.js:3579-3645 | for every n: the code emitted for CREATE s = 0 and CYCLE i FROM 1 TO n with the body SET s = s + i leaves n (n + 1) / 2 at the address of s |
| FlowMeaning.CountingMeaning | core/llvm_codegen.js:3579-3645 | a CYCLE from a to b with step k runs its body once for each of a, a + k, a + 2 k, ... up to b, b included |
| FlowMeaning.HalvingMeaning | core/llvm_codegen.js:3648-3684 | a SEASON that runs k down to 0 and counts even and odd values in the two arms of an IF counts (k + 1) / 2 and k / 2 |
| FlowMeaning.FirstArm | core/llvm_codegen.js:3545-3577 | of any number of arms the first whose condition holds, or that has none, runs and no other; with none, nothing |
| FlowMeaning.ConversionMeaning | core/llvm_codegen.js:3320-3376 | NUM to SCL is exact, SCL to NUM goes toward zero, FACT counts as 0 or 1, NUM becomes a FACT by its lowest bit, and nothing else converts |
| FlowMeaning.SetMeaning | core/llvm_codegen.js:3414-3427 | SET leaves the value converted to the type the variable has and changes no other variable |
| FlowMeaning.StepMeaning | core/llvm_codegen.js:3429-3451 | INCREASE and DECREASE add and subtract the converted amount, modulo 2^64 in a NUM and exactly in an SCL, and change no other variable |
| FlowMeaning.VariableEnds | core/llvm_codegen.js:1129-1141 | whatever a checked program's run leaves in a variable in view, the emitted code leaves at the variable's address |
| FlowMeaning.ArenaHolds | core/llvm_codegen.js:245-246 | an empty arena takes exactly 8192 variables of type NUM or SCL, or 65536 of type FACT |
| FlowErrors.UnknownReported | core/llvm_codegen.js:3414-3451 | every program that uses, anywhere, a name it nowhere creates is reported |
| FlowErrors.SetReported | core/llvm_codegen.js:3414-3427 | SET is reported exactly when its name is unknown, its expression is reported or the value does not convert to the variable's type |
| FlowErrors.CoerceReports | core/llvm_codegen.js:3320-3376 | a conversion is reported exactly when the types differ and are none of NUM and SCL, SCL and NUM, FACT and NUM, NUM and FACT |
| FlowProgram.ProgramRuns | core/llvm_codegen.js:1129-1141 | a checked program compiles without an error, and whenever its structured run ends, its code started on empty arenas arrives at its end with every variable's value in bytes of its own |
| FlowProgram.TickKeepsOffset | core/llvm_codegen.js:3627-3634 | a pass keeps the offsets of the loop's depth and all shallower ones, and empties the arenas between that depth and where the body's code ends |
| FlowTidy.TickTidy | core/llvm_codegen.js:3627-3634 | a body in which no IF has an arm that ends deeper than the IF does leaks nothing: after a pass every arena is as it was or, below the loop's depth, empty, for every world and number of steps |
| FlowTidy.DeepArmLeaks | core/llvm_codegen.js:3630-3632 | whatever a taken arm leaves in an arena deeper than where its IF ends is still there after the pass when only shallower statements follow; where that is neither nothing nor what was there, the body is not of that kind |
| FlowProgram.BlockShallow | core/llvm_codegen.js:1172-1188 | no statement touches the arenas shallower than the block it stands in |
| FlowProgram.LeakyPass | core/llvm_codegen.js:3630-3632 | a checked body whose IF has a deeper arm before a shallower one leaves 8 more bytes in arena 3 on each pass |
| FlowProgram.LeakAccumulates | core/llvm_codegen.js:3630-3632 | the leak adds up: after n passes, 8 n bytes |
| Flow.Generator.GenStatement | core/llvm_codegen.js:3122-3146 | the emitting methods compute exactly the specified code, registers, labels, scope and depth |
| Flow.Generator.GenIf | core/llvm_codegen.js:3545-3577 | labels first, then arm by arm |
| Flow.Generator.GenCycle | core/llvm_codegen.js:3579-3645 | head, test, body, step, in the source's order of register numbers |
| Flow.Generator.GenSeason | core/llvm_codegen.js:3648-3684 | test, body, branch back |
| Flow.Generator.GenCreate | core/llvm_codegen.js:3207-3318 | allocation before the value, scope after it |
| Flow.Generator.GenSet | core/llvm_codegen.js:3414-3427 | the store and the error of an unknown name |
| Flow.Generator.GenIncDec | core/llvm_codegen.js:3429-3451 | the load before the amount, and the two errors |
| Flow.Generator.Coerce | core/llvm_codegen.js:3320-3376 | conversions between NUM and SCL and NUM and FACT; anything else is an error |
| Flow.Generator.TrackDepth | core/llvm_codegen.js:1172-1188 | entering is free, leaving empties every arena left |
| Flow.Generator.ArenaAllocTyped | core/llvm_codegen.js:289-320 | the emitted allocation sequence |
| Flow.Generator.FreshLabels | core/llvm_codegen.js:3550-3551 | consecutive numbers |
| MapTable.Table.Put | core/llvm_codegen.js:1593-1753 | it grows if and only if 4 len >= 3 capacity; without a growth one bucket changes and the map gains the binding; with one, exactly the bindings of the first len buckets survive and the table doubles; always 4 occupied <= 4 len <= 3 capacity, the capacity is 8 times a power of two, and len counts every put |
| MapTable.HomeIs | core/llvm_codegen.js:1616-1660 | a key's home bucket is its remainder by the capacity, negative keys included |
| MapTable.Table.Grow | core/llvm_codegen.js:1757-1890 | re-inserts what the first len old buckets hold, and nothing else, into twice the buckets |
| MapTable.Table.Has | core/llvm_codegen.js:1893-2003 | true exactly for the keys of the table |
| MapTable.Table.Get | core/llvm_codegen.js:960-1049 | the bound value, or none |
| MapTable.Table.Next | core/llvm_codegen.js:3832-3899 | skips empty buckets and hands out the next occupied one |
| MapTable.Table.ForIn | core/llvm_codegen.js:3720-3758 | terminates having visited the occupied buckets' values in bucket order |
| MapTable.Probe | core/llvm_codegen.js:1666-1733 | the probe loop ends at the key's bucket or the first empty one on its path, in every reachable table |
| MapTable.ProbeFree | core/llvm_codegen.js:1833-1868 | the re-insertion probe ends at an empty bucket |
| MapTable.WriteKeepsTable | core/llvm_codegen.js:1666-1752 | writing at the probed slot keeps the linear-probing invariant: no empty bucket between a key's home and its bucket, no key twice |
| MapTable.FreeSlotMeansAbsent | core/llvm_codegen.js:1893-2003 | an empty bucket on the probe path means the key is nowhere in the table |
| MapTable.ModelWrite | core/llvm_codegen.js:1736-1752 | the write at the probed slot is the map update |
| MapTable.VisitedOnce | core/llvm_codegen.js:3832-3898 | every occupied bucket's value is visited exactly once, after those of the occupied buckets before it |
| MapTable.GrowthKeepsExactly | core/llvm_codegen.js:1785-1789 | a binding survives a growth if and only if its bucket's index is below len |
| MapTable.LosingRun | core/llvm_codegen.js:1785-1789 | seven puts of distinct keys after which the first key is gone |
| Species.SlotsInherited | core/llvm_codegen.js:850-869 | every inherited method keeps its ancestor's slot at any distance |
| Species.SlotsDistinct | core/llvm_codegen.js:862-868 | no two methods share a slot |
| Species.SlotsCover | core/llvm_codegen.js:850-869 | the slots are exactly the methods some species of the chain defines |
| Species.SlotOrder | core/llvm_codegen.js:850-869 | slots are numbered in the order of first definitions, down the chain and along each declaration |
| Species.DefinerIsLast | core/llvm_codegen.js:917-935 | the nearest definition up the chain is the last one down it |
| Species.DispatchReachesOverride | core/llvm_codegen.js:917-938 | through any ancestor's slot a descendant's vtable reaches the most derived definition |
| Species.FieldsInherited | core/llvm_codegen.js:872-893 | an inherited field that no descendant redeclares keeps its index |
| Species.LayoutIs | core/llvm_codegen.js:872-893 | the layout is the vtable pointer, then every declared field in the order of the chain and of each declaration, and nothing else: field i of species k stands after those of the species above it and its own earlier ones |
| Species.FieldIndexIs | core/llvm_codegen.js:872-893 | a field not declared again has the index of the place it was declared at; a redeclared one that of its last declaration |
| Species.Registry.Register | core/llvm_codegen.js:872-957 | registration lays the new species out after its parent and leaves all others alone |
| Species.Registry.ComputeMethodSlots | core/llvm_codegen.js:850-869 | the recursive walk computes the chain's slots |
| Species.Registry.FindImplementation | core/llvm_codegen.js:918-935 | the walk up finds the nearest definition |
| Species.Registry.CollectFields | core/llvm_codegen.js:873-893 | vtable field, then the parent's fields, then its own |
| Species.Registry.Dispatch | core/llvm_codegen.js:2256-2320 | a call through a variable of an ancestor species reaches the object's own definition, or is refused |
| Strings.StrSplit | runtime/runtime.c:118-178 | the second pass writes exactly the parts the first pass counted, and they are the split |
| Strings.CountParts | runtime/runtime.c:139-150 | the counting pass counts the pieces |
| Strings.StrJoin | runtime/runtime.c:193-229 | the second pass fills exactly the buffer the first pass sized, with the join |
| Strings.CombinedLength | runtime/runtime.c:204-211 | the first pass computes the join's length |
| Strings.JoinSplit | runtime/runtime.c:118-229 | join(split(s, d), d) = s for every s and every d, the empty one included |
| Strings.SplitFree | runtime/runtime.c:118-178 | no part of a split contains the delimiter |
| Strings.SplitIs | runtime/runtime.c:118-178 | a split is the only way to cut s into separable parts whose join is s; an empty delimiter does not cut |
| Strings.JoinIs | runtime/runtime.c:181-229 | in a join part i comes right after the parts and delimiters before it, and a delimiter after every part but the last |
| Strings.SplitJoinIff | runtime/runtime.c:118-229 | split(join(ps, d), d) = ps if and only if no part but the last, followed by d, holds d early, and the last not at all |
| Strings.SplitJoinOneByte | runtime/runtime.c:118-229 | which always holds for a one-byte delimiter and parts free of it |
| Strings.SplitJoinOverlap | runtime/runtime.c:118-229 | a longer delimiter that overlaps itself breaks the round trip although no part contains it |
| Strings.Replace | runtime/c/plant_compat.h:232-252 | the fill pass writes exactly the precomputed length, also when the unsigned difference of lengths wraps, and the result is the split on the pattern joined with the replacement; an empty pattern changes nothing |
| Strings.CountMatches | runtime/c/plant_compat.h:236-237 | the first pass counts the cuts |
| Strings.WrappedLength | runtime/c/plant_compat.h:239-240 | the wrapped size computation is exact whenever the result's length fits a word |
| Strings.ReplacedLength | runtime/c/plant_compat.h:239-240 | the length of the result is the source's plus the cuts times the difference |
| Strings.StringsSplit | runtime/c/plant_compat.h:519-531 | the strstr loop computes the same split |
| Imports.Resolver.ResolveImports | core/parser.js:2941-3006 | terminates on every finite set of files and returns the resolution or the first storm; on success the shared stack is as before but for the current file |
| Imports.Resolver.ResolveStatement | core/parser.js:2950-3003 | one import: circular, missing, or replaced by its resolved statements |
| Imports.DoneIffClean | core/parser.js:2941-3006 | resolution succeeds exactly when no chain of imports repeats a file, reaches one on the stack or a missing one |
| Imports.CircularIffCycle | core/parser.js:2967-2971 | with all imports present the circular-import storm is raised exactly when a cycle is reachable from the root |
| Imports.DoneIsInlining | core/parser.js:2985-3005 | a successful resolution is the depth-first inlining with no import statement left |
| Imports.StormHasChain | core/parser.js:2967-2983 | every storm exhibits the chain of imports it is about |
| Imports.FirstStorm | core/parser.js:2950-2983 | of all faulty chains the storm is the first one in depth-first order: circular if its last import is on the stack or on the chain already, not found otherwise |

## Left out

- Sigmoid, tanh, gelu, swish, mish, sqrt, log, exp, abs and dropout on the tape: transcendental or random local factors.
- LAYERNORM, BATCHNORM and SOFTMAX as tape nodes: their adjoints are proved over whole tensors, but the whole-tape theorem does not include them, because roots and exponentials would have to become values of the tape.
- GRAD's tolerance in comparing a retained loss is modelled on reals; error texts of the first engine are an enumeration.
- Allocation failure, and tensors freed while still in use.
- Ad2Engine.Engine.Grad: the reference counts of the second engine and its scratch list are not modelled.
- Ad2Engine.Engine.BackpropNode: softmax and the activation rules of the second engine other than RELU.
- Ad2.TapedRule: covers regular nodes only, because the code treats the others differently; the exact condition is Ad2Rule.ProductShapes.
- FlowProgram.ProgramRuns: says nothing of runs that get stuck (a zero divisor, a conversion out of range, a full arena) or do not end.
- Text values: TX literals, concatenation and comparison, and TX in conditions, SET and CREATE; arrays, structs, species values and BLOOM in statements.
- Splitting source text into tokens, and BETWEEN in conditions.
- SHELTER and storms in compiled code: expressions are compiled with no SHELTER active, where the zero checks emit nothing.
- GIVE, FOR IN over arrays, CYCLE over a list, actions and calls, PRINT.
- Registers and constants beyond 64 bits in the emitted text; NaN and infinities.
- MAP with TX keys, removal (there is none), the arena space of the buckets, and a FOR IN body that changes its map.
- MapTable.Table.Get: the compiled GET probes only after HAS found the key, so the probe of an absent key is not modelled.
- Species.Registry.Register: parents are registered before children and names are not registered twice; struct sizes and the text of the vtable are not modelled.
- Null text pointers, for which the string functions return an empty or null result.
- Strings.StringsSplit: asks for a non-empty delimiter, because with an empty one the source's loop does not end.
- Strings.Replace: asks that the result's length fits a machine word; the 32-bit match counter is not modelled.
- Imports.Resolver.ResolveImports: paths are already resolved names; the search for files without an extension and the parsing of their text are not modelled.
- Constant folding of syntax trees (src/compiler/ast_constant_folder.js).
- The service, sandbox, drivers, file and process input and output, and the workers.
