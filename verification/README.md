# Verification of the CPU training core

This project models the CPU training core of the native library and proves properties of
the model with Dafny 4.11. `dafny verify dfyconfig.toml` checks everything.

The core is a define-by-run automatic differentiation engine over strided tensor views that
share storage, together with the code that mutates those tensors and the handles that keep
them alive.

## What is modelled

* **Tensors and layouts** (`Shapes`, `Layouts`, `ViewChains`). Checked shape construction with
  its 64-bit products, mixed-radix index decoding, contiguity, copying out of strided storage,
  zero-copy and materialising reshapes, transposes.
* **Operators** (`Calculus`, `Operators`, `Duals`, `Vjps`, `ForwardKernels`,
  `BackwardKernels`, `Meanings`). Each operation has a value, a dual-number form (value and
  directional derivative by the sum, product, quotient and chain rules) and the contribution
  its backward code computes. `Meanings` states the values once more in plain arithmetic and
  proves the operators equal to that. The loops of the original are methods proved to compute
  those functions. The exponential, logarithm, hyperbolic tangent, error function and square
  root are arbitrary functions; only a positive exponential, exp(-x) exp(x) = 1, a nonnegative
  square root of nonnegative numbers and the relations between the GELU constants are used.
* **Adjoints** (`Adjoints`, `ProductAdjoints`, `LossAdjoints`, `OperatorAdjoints`). The inner
  product identity between the dual-number form and the coded contributions, operation by
  operation.
* **Recorded graphs** (`Graphs`, `GraphFacts`, `GraphGaps`, `TopologyBuilder`, `Programs`).
  Forward mode, the depth-first order, the reverse sweep, and their agreement.
* **The heap** (`Worlds`, `Transitions`, `Runs`, `Memory`, `Heap`, `CpuBackend`,
  `TrainingBridge`, `Operations`). A class with the storages, version counters, tensors,
  autograd metadata, reference counts and byte counter, changed in place. An index into one of
  its tables stands for a shared pointer: tensors with the same storage index share storage,
  tensors with the same counter index share version and identity. Three ghost facts are kept:
  the operand values each recorded node read, the history of changes that led from the empty
  heap to the present one, and the references held from outside. The code never sees them.
* **The backward pass** (`BackwardPass`, `Publication`, `Backward`, `Soundness`,
  `OverwrittenResults`).
* **Transactions** (`HandleRegistry`, `Assignment`, `ByteCodec`, `Checkpoints`,
  `FileLayout`, `CheckpointStreams`, `LinearModules`). The handle registry, batch assignment
  through handles, and the checkpoint format, by fields and byte by byte. A module's parameters
  are tensors of the heap; `Coding` relates the words of a file to the values they stand for.
* **Optimizers** (`Moments`, `OptimizerSteps`, `Optimizers`), over tensors and over modules.
* **Ownership and the engine** (`Ownership`, `Holdings`, `Engine`). The class `System` puts
  heap, registry, modules and optimizers together behind handles. Its methods are the calls a
  user of the library can make, and `Run` makes any list of them.

## How the results fit together

`BackwardFrom` is specified without mentioning derivatives: it succeeds under an exact
condition and publishes the adjoints of a pure sweep. `ReverseEqualsForward` shows what those
adjoints mean, `ReverseWithGap` what they mean when cross-entropy targets are not normalised,
`OperatorAdjoint` supplies the step for each operation, and `BackwardDifferentiates` puts them
together on the heap.

Every method of the heap extends the history by the change it makes, and its invariant says
that the history leads to the present heap. The theorems about histories (`StaleAliasSound`,
`RunIsLater`, `RecordedMoment`) therefore speak about every interleaving of operations,
assignments, optimizer steps, loads and releases; `RunThenBackward` states the consequence for
any list of calls that ends in a successful backward pass.

The same invariant says that reference counts are exact. Dropping the last reference to a
tensor cascades through the operands it recorded. `CountingIsReaching` and `LiveBytesExact` turn
exact counts into reachability, `HeldIfReached` turns the references from outside into handles,
and `Run` and `LiveBytesOfHandles` state the result: the byte counter is always what the handles
of tensors, modules and optimizers reach, and zero when there is none.

Some facts of the code that the contracts follow:

* Whether an operand takes part is read when the backward pass runs, not when the node was
  recorded.
* The contribution of a sum keeps the operand's possibly transposed strides; the first
  accumulation makes it canonical.
* The cross-entropy contribution to the logits is probability minus target. That is the
  derivative exactly when every target row sums to one (`CrossEntropyExact`); `CrossEntropyGap`
  gives the difference for all other targets.
* The version check looks at operands and not at results. An intermediate result that is
  overwritten before its next use keeps its history, and the gradient then is not the
  derivative of the program from its leaves: `OverwrittenResultMisleads` gives a run. It is the
  derivative whenever no result the root depends on has moved its version since it was
  recorded, which a caller can read off the version counters (`UnmovedIsCoherent`,
  `TangentIsProgramDerivative`). The exact condition is `ReproducedIffCoherent`, on values. It
  does not follow back to versions: a result that was overwritten with the value it already had
  has moved, and the gradient is the derivative all the same.
* ReLU, sigmoid, tanh, the losses and the bias addition need contiguous inputs; GELU, SiLU and
  SwiGLU do not.
* The loader accepts any nonzero bias flag byte.
* The optimizer's step counter advances for parameters without a gradient too, so bias
  correction over-corrects the moments of parameters that missed steps (`BiasCorrection`).
* Optimizers reject a tensor given twice, but not two aliases of one storage. Such parameters
  are stepped one after the other, each from what the previous one wrote (`StepsFrom`), and
  their version moves once for each of them (`StepsReach`).
* A call whose result cannot be registered, because the identifiers are used up, has still
  been recorded in the history; its result is dropped again.

## Model

| member | source | states |
|---|---|---|
| Backward.BackwardFrom | native/src/autograd/autograd.h:832-907 | Succeeds if and only if the root has one element, requires gradients, and every node it depends on has current saved versions; then exactly the leaves it depends on gain their final adjoint, once each, and every other piece of metadata is unchanged; on failure nothing changes, so no error inside the sweep is reachable |
| Soundness.BackwardDifferentiates | native/src/autograd/autograd.h:832-907 | After a pass that reports success, for any leaf tangents, the pairing of leaf gradients with the tangents has grown by the forward-mode derivative of the root less the gaps of the cross-entropy nodes it depends on, and by exactly the derivative if their targets are normalised; every operator was differentiated at the operand values of some moment of the history at which it was recorded; a pass that fails changes nothing |
| Soundness.PassGains | native/src/autograd/autograd.h:832-907 | The same in every direction at once, for a pass already published |
| Graphs.ReverseEqualsForward | native/src/autograd/autograd.h:868-905 | Reverse mode equals forward mode on every recorded graph whose cross-entropy targets are normalised, including shared subexpressions and repeated operands |
| GraphGaps.ReverseWithGap | native/src/autograd/autograd.h:868-905 | For any targets: the leaf pairing is the derivative of the root less the sum, over the listed nodes, of the node's gap under the adjoint that reaches it |
| Publication.BackwardAddsDerivative | native/src/autograd/autograd.h:827-830 | Accumulating into gradients that already exist adds the derivative of the root to what they paired to before |
| Publication.DeliverIsList | native/src/autograd/autograd.h:897-903 | Collecting a node's contributions first and accumulating them afterwards is the same as delivering them operand by operand, also when an operand occurs twice |
| GraphFacts.AdjointFinal | native/src/autograd/autograd.h:873-895 | When the sweep reaches a tensor its adjoint never changes again, so what is published into a leaf is final |
| GraphFacts.BackwardReaches | native/src/autograd/autograd.h:868-905 | Exactly the tensors the root depends on that require gradients receive an adjoint |
| Programs.TangentIsProgramDerivative | native/src/autograd/autograd.h:832-907 | If no result the root depends on was overwritten, the forward-mode tangent is the derivative of the whole recorded program re-evaluated on dual numbers from its leaves |
| Programs.ReproducedIffCoherent | native/src/autograd/autograd.h:832-907 | Re-evaluating the recorded program reproduces all stored values if and only if every result still holds what its operator computes |
| Soundness.UnmovedIsCoherent | native/src/autograd/autograd.h:847-862 | Current saved versions, together with results whose own version counter is that of their recording (the version saved for the operand if the result is a view of it, zero otherwise), imply that every stored value is what the program computes |
| OverwrittenResults.OverwrittenResultMisleads | native/src/autograd/autograd.h:347-358 | The version check guards operands, not results: the state a run leads to, in which an intermediate result was overwritten before its next use, passes the check, and its gradient (1200) is not the derivative of the program (108) |
| OverwrittenResults.OverwrittenReached | native/src/autograd/autograd.h:347-358 | The run: create a leaf, square it, overwrite the square, square that; every change is one the heap can make, and they lead to exactly that state |
| OperatorAdjoints.OperatorAdjoint | native/src/autograd/autograd.h:397-804 | For every operation, all shapes and values: the upstream gradient paired with the forward-mode tangent equals the coded contributions paired with the operand tangents |
| ProductAdjoints.MatmulAdjoint | native/src/autograd/autograd.h:499-556 | The two matmul contribution loops are the adjoint of the product in both operands at once |
| ProductAdjoints.SwiGluAdjoint | native/src/autograd/autograd.h:599-644 | The SwiGLU contribution is the adjoint of the gated forward pass over both halves of every row |
| LossAdjoints.CrossEntropyGap | native/src/autograd/autograd.h:685-763 | For any targets, the cross-entropy contributions pair to the true derivative plus a gap weighted by how far each target row is from summing to one |
| OperatorAdjoints.CrossEntropyExact | native/src/autograd/autograd.h:722-727 | The coded cross-entropy contributions are the derivative for all tangents if and only if every target row sums to one |
| OperatorAdjoints.UnnormalisedFails | native/src/autograd/autograd.h:722-727 | For every input with a target row that does not sum to one, a tangent on which the coded logits gradient is wrong |
| Calculus.SlopeIsDerivative | native/src/autograd/autograd.h:557-598 | The coded slopes of ReLU, sigmoid, tanh, GELU and SiLU are the derivatives of their forward formulas |
| Calculus.ProductExpansion | native/src/autograd/autograd.h:451-488 | The product rule used for tangents is the first-order part of the product of two lines |
| Calculus.QuotientExpansion | native/src/autograd/autograd.h:557-598 | The quotient rule used for tangents undoes the product rule |
| BackwardPass.VjpKernel | native/src/autograd/autograd.h:418-801 | The loops of each operation compute the specified contribution |
| BackwardPass.ApplyNode | native/src/autograd/autograd.h:397-804 | Fails exactly when a saved version is stale; otherwise yields one contribution per operand that requires gradients at that time, in order, each of its operand's shape; every other error branch is unreachable |
| BackwardPass.AddInPlace | native/src/autograd/autograd.h:321-336 | Succeeds exactly for equal shapes and a contiguous, full destination, and then adds the logical values of the source |
| BackwardPass.AccumulateDense | native/src/autograd/autograd.h:338-345 | The first contribution is copied into canonical layout, later ones are added; never fails in the sweep |
| BackwardPass.ValidateSavedVersions | native/src/autograd/autograd.h:347-358 | Accepts a tensor without a node, and otherwise exactly when the version counter of every saved operand has the saved value |
| TopologyBuilder.BuildTopology | native/src/autograd/autograd.h:806-825 | Depth-first post-order: terminates, lists nothing twice, operands before users, and every listed tensor is used by a later one or is the one asked for |
| TopologyBuilder.TopologyIsDependence | native/src/autograd/autograd.h:806-825 | Such an order lists exactly the tensors the root depends on |
| LossAdjoints.SoftmaxTangent | native/src/autograd/autograd.h:709-728 | The maximum shift cancels and the probabilities are those of the derivative of the log-denominator |
| Runs.StaleAliasSound | native/src/autograd/autograd.h:347-358 | In every run: a node that passes the version check reads exactly the operand values it had at the moment it was recorded, whatever was written, loaded, viewed or recorded in between |
| Runs.FreshReadsAsRecorded | native/src/autograd/autograd.h:347-358 | In every run, for every node that passes the version check there is a moment of the run at which it was recorded with exactly these operand values |
| Runs.RecordedMoment | native/src/autograd/autograd.h:255-283 | Every node that is there was recorded at some moment of the run, with the versions its operands had then |
| Runs.RecordedVersionIs | native/src/autograd/autograd.h:268-279 | The version a result had when it was recorded can be read off its node at any later time: the version saved for its operand if it is a view of it, zero otherwise |
| Runs.RunIsLater | native/src/backends/cpu/cpu_backend.cc:46-59 | In every run, between any two moments: a tensor's contents change only if its version grew; views, sharing, storage lengths, recorded nodes and the tensors' saved versions never change |
| Transitions.WriteOk | native/src/autograd/autograd.h:226-228 | Because a write moves the version all aliases share, every recorded node remains either provably unchanged or detectably stale |
| Transitions.WriteReaches | native/src/backends/cpu/cpu_backend.cc:46-59 | A write reaches exactly the aliases of its target and moves exactly their version |
| Worlds.FreshMeansUnchanged | native/src/autograd/autograd.h:347-358 | A node with current saved versions sees the operand values of its recording |
| Heap.TensorHeap.AttachNode | native/src/autograd/autograd.h:255-283 | Records a node with the operands' current versions if and only if some operand requires gradients |
| Heap.TensorHeap.StoreValues | native/src/training/nn_v2_state.h:290-293 | Replaces a storage's contents and nothing else; the heap is not valid again before the version moves |
| Heap.TensorHeap.IncrementVersion | native/src/autograd/autograd.h:228 | After a store, moves the version the aliases share; only then is the heap valid, so a writer that forgot it could not return |
| Heap.TensorHeap.SetMeta | native/src/tensor/tensor.h:92-94 | Replaces a live tensor's metadata without touching its node; the byte counter changes by four for each element of the gradients that come and go |
| Heap.TensorHeap.ClearGradient | native/src/autograd/autograd.h:924-929 | Drops a gradient and its bytes, and changes no other metadata |
| Heap.TensorHeap.Drop | native/src/memory/cpu_storage.cc:14-16 | Dropping a reference: with the last one the tensor, its gradient and, with its storage's last tensor, the storage are destroyed, and its operands are dropped in turn; the cascade ends because operands are older, and all counts and the byte counter are exact afterwards |
| Layouts.LayoutBijection | native/src/tensor/tensor.cc:59-71 | For every layout the CPU operations build, logical indices and storage positions correspond one to one, with an explicit inverse |
| Layouts.ContiguousIsIdentity | native/src/tensor/tensor.cc:48-57 | Contiguity makes storage indexing the offset plus the logical index, at every rank |
| Layouts.LogicalStorageIndex | native/src/tensor/tensor.cc:59-71 | The coordinate loop computes the mixed-radix storage position |
| Layouts.IsContiguous | native/src/tensor/tensor.cc:48-57 | The stride loop decides equality with the row-major strides, without wrap-around |
| Layouts.CopyToHost | native/src/tensor/tensor.cc:81-130 | Bulk and element paths give the same logical elements; fails exactly when an element lies outside the storage |
| Layouts.RegularInBounds | native/src/tensor/tensor.cc:120-124 | The out-of-storage error is unreachable for tensors the CPU operations build |
| ViewChains.ChainRefinesLists | native/src/backends/cpu/cpu_backend.cc:116-154 | Any chain of reshapes and transposes, through zero-copy or copying steps, reads back the pure row-major reshape and transpose of the value list, and is accepted exactly when that is |
| ViewChains.TransposeTwice | native/src/backends/cpu/cpu_backend.cc:140-154 | Transposing twice gives back the values |
| Shapes.ValidateShape | native/src/tensor/shape.cc:8-70 | Succeeds exactly for rank at most 32, positive dimensions and at most 0x3fffffffffffffff elements; then element count, strides and byte size are exact, and no product wraps |
| CpuBackend.ReshapeTo | native/src/backends/cpu/cpu_backend.cc:116-138 | Succeeds exactly for a valid shape of equal element count; shares storage exactly when the source is contiguous, owns fresh storage otherwise |
| CpuBackend.TransposeTensor | native/src/backends/cpu/cpu_backend.cc:140-154 | Succeeds exactly for rank two; shares storage and reads the transposed values |
| CpuBackend.AddTensors | native/src/backends/cpu/cpu_backend.cc:156-186 | Sum of logical values under equal shapes, recorded with its operands' versions |
| CpuBackend.MultiplyTensors | native/src/backends/cpu/cpu_backend.cc:188-219 | Product of logical values under equal shapes, recorded with its operands' versions |
| CpuBackend.SumTensor | native/src/backends/cpu/cpu_backend.cc:221-243 | A scalar with the sum of all logical values |
| CpuBackend.MatmulTensors | native/src/backends/cpu/cpu_backend.cc:245-298 | Succeeds exactly for matching rank-two shapes with a representable result; each entry is the sum of products |
| ForwardKernels.MatmulKernel | native/src/backends/cpu/cpu_backend.cc:283-292 | The accumulating row, inner, column loop computes the sum-of-products matrix |
| Shapes.FlatIndex | native/src/backends/cpu/cpu_backend.cc:283-292 | The flat index of a matrix element stays inside the storage, and no step of its signed 64-bit computation overflows |
| MatrixLaws.TransposeOfProduct | native/src/backends/cpu/cpu_backend.cc:283-292 | The transpose of a product is the product of the transposes in reverse order |
| MatrixLaws.TransposedProduct | native/src/backends/cpu/cpu_backend.cc:140-154 | The same law through the tensor operations, on operands of any layout, leaving every other tensor as it was |
| TrainingBridge.ActivateTensor | native/src/training/nn_v2_runtime.h:42-77 | GELU and SiLU always succeed; ReLU, sigmoid and tanh succeed exactly for contiguous inputs; the result is recorded |
| TrainingBridge.SwiGluTensor | native/src/training/nn_v2_runtime.h:79-125 | Succeeds exactly for rank at least one and an even last dimension |
| TrainingBridge.MseLoss | native/src/training/training_bridge_stub.cc:487-521 | Mean squared difference of equal-shaped contiguous tensors |
| TrainingBridge.CrossEntropyLoss | native/src/training/training_bridge_stub.cc:523-582 | Mean over rows of target times negative log-softmax, computed under the row-maximum shift |
| ForwardKernels.CrossEntropyKernel | native/src/training/training_bridge_stub.cc:554-575 | The maximum, denominator and accumulation loops compute the loss |
| TrainingBridge.AddBias | native/src/training/training_bridge_stub.cc:205-240 | Adds the bias to every row of a contiguous matrix |
| TrainingBridge.SetRequiresGrad | native/src/training/nn_v2_parameter_control.h:41-64 | Refused exactly for recorded results; freezing drops the gradient; only the tensor's own metadata changes |
| TrainingBridge.GradientSnapshot | native/src/autograd/autograd.h:909-922 | Available exactly when a gradient was published; a copy with storage of its own |
| Assignment.AssignMany | native/src/training/nn_v2_state.h:214-297 | Succeeds exactly when all handles name tensors, shapes agree, no two targets share identity and targets are contiguous; then every target holds what its source held before the call, all aliases of targets move one version, target gradients are dropped and nothing else changes; on failure nothing changes; accepted exactly if all handles are live tensor handles, pairs have equal dimensions, targets are contiguous and have pairwise different version counters |
| Assignment.AssignmentInvalidates | native/src/training/nn_v2_state.h:290-295 | A node whose saved versions were current stays valid after an assignment if and only if none of its operands aliases a target |
| HandleRegistry.Accounting | native/src/runtime/handle_registry.cc:12-79 | Over every run: identifiers are issued in sequence, each at most once; a live handle's count is one plus retains minus releases |
| HandleRegistry.LiveExactly | native/src/runtime/handle_registry.cc:37-79 | A handle is live if and only if it was issued and its releases have not used up its references |
| HandleRegistry.OnlyHonestErrors | native/src/runtime/handle_registry_internal.h:11-40 | Insertion fails only when identifiers are exhausted, release only for a handle not live under that type; the duplicate and zero-count branches are unreachable, and failures change nothing |
| HandleRegistry.LiveIsAccepted | native/src/runtime/handle_registry.cc:37-79 | In every run a handle is found, and can be released, if and only if it is live under that type, and can be retained if and only if its count is not the largest one |
| HandleRegistry.IssuedIsFound | native/src/runtime/handle_registry.cc:12-35 | In every run a handle that was just issued is found, under its own type alone, names the inserted item and can be released |
| HandleRegistry.LifeOfHandle | native/src/runtime/handle_registry.h:32-56 | Type and object of a live handle never change, and a dead handle is never accepted again |
| HandleRegistry.Registry.Count | native/src/runtime/handle_registry.cc:81-90 | Counts the live handles whose entries have the type |
| Checkpoints.AcceptedIsPrinted | native/src/training/training_bridge_stub.cc:750-811 | A byte string is accepted with given contents if and only if it is what printing writes for them, up to the value of a nonzero bias flag |
| Checkpoints.LoadOfSave | native/src/training/training_bridge_stub.cc:750-820 | Loading what saving wrote gives the parameters back bit for bit |
| Checkpoints.SaveOfLoad | native/src/training/training_bridge_stub.cc:807-811 | Re-saving an accepted file reproduces it with the bias flag byte normalised to zero or one |
| Checkpoints.SelfDelimiting | native/src/training/training_bridge_stub.cc:821-823 | No proper prefix and no proper extension of an accepted file is accepted |
| Checkpoints.TensorExact | native/src/training/training_bridge_stub.cc:335-400 | A tensor's rank, dimension, count and element fields determine its bytes, and conversely |
| CheckpointStreams.ReadTensorPayload | native/src/training/training_bridge_stub.cc:362-400 | Succeeds exactly when the stored rank, dimensions and count are the expected ones and all elements are present |
| CheckpointStreams.CheckHeader | native/src/training/training_bridge_stub.cc:793-813 | Succeeds exactly for the magic, version, dimensions and bias flag of the module's configuration |
| LinearModules.LinearModule.Save | native/src/training/training_bridge_stub.cc:750-780 | Writes exactly the printed form of the module's contents and never fails on it: the bytes of TSTRNV1 and a zero, version 1, both dimensions, a flag byte of one or zero, and rank, dimensions, count and elements of each parameter, all little-endian at their positions |
| LinearModules.LinearModule.Load | native/src/training/training_bridge_stub.cc:782-842 | All or nothing: succeeds exactly on accepted files; then each parameter, a tensor of the heap, holds its part of the file, every alias of a parameter has moved one version, the parameters' gradients are gone, and no other tensor or node has changed; on failure nothing changes, and the errors after reading are unreachable; an accepted file starts with the bytes of TSTRNV1 and a zero and version 1, has a flag byte that is nonzero exactly for a bias, and is laid out byte by byte as a saved one |
| FileLayout.AcceptedExactly | native/src/training/training_bridge_stub.cc:782-823 | A file is accepted if and only if, for some contents, every byte stands where the format puts it and nothing follows |
| FileLayout.AcceptedIsLayout | native/src/training/training_bridge_stub.cc:335-400 | It is accepted with given contents if and only if its bytes are those of header, dimensions, counts and elements, least significant byte first |
| FileLayout.SavedLayout | native/src/training/training_bridge_stub.cc:758-779 | A saved file is laid out like that, with a flag byte of one for a bias and zero otherwise |
| LinearModules.LoadedContents | native/src/training/training_bridge_stub.cc:826-841 | What the module holds after a load is what the file holds, word for word |
| LinearModules.LinearCreate | native/src/training/training_bridge_stub.cc:584-635 | Succeeds exactly for positive dimensions whose product is at most 0x3fffffffffffffff; the new module's weight has shape [in, out] and its bias, if there is one, [out]; both are leaves of their own with the given values, and nothing else changes |
| LinearModules.Copy | native/src/training/training_bridge_stub.cc:750-842 | Saving one module and loading the file into another copies the parameters exactly |
| ByteCodec.FieldsAre | native/src/training/training_bridge_stub.cc:322-333 | An array of little-endian fields holds given values exactly when its bytes are their encodings |
| Optimizers.Optimizer.CpuStep | native/src/training/nn_v2_optimizer.h:339-417 | Never fails; the step counter always advances; heap and histories afterwards are those of the parameters stepped one after the other, each from the heap its predecessors left, also where parameters alias one another; each parameter that shares its storage with no other gradient-bearing one has every stored element updated by the rule, from the contents and moments before the call |
| OptimizerSteps.StepTensor | native/src/training/nn_v2_optimizer.h:346-415 | One parameter: without a gradient nothing happens; with one every stored element is updated with its moments and its element of the gradient, and then the version moves by one |
| OptimizerSteps.SgdStored | native/src/training/nn_v2_optimizer.h:367-380 | The SGD rule in plain arithmetic for each stored element of a parameter and its stored moment |
| OptimizerSteps.AdamStored | native/src/training/nn_v2_optimizer.h:387-412 | The Adam and AdamW rules in plain arithmetic for each stored element of a parameter and its stored moments; second moments stay nonnegative and everything divided by is positive |
| Optimizers.Optimizer.SecondsNonNegative | native/src/training/nn_v2_optimizer.h:397-402 | In every reachable state the stored second moments are nonnegative, as the rule above asks |
| OptimizerSteps.StepsReach | native/src/training/nn_v2_optimizer.h:346-415 | A step raises every version by exactly the number of gradient-bearing parameters that share it, and leaves storages that none of them shares alone |
| OptimizerSteps.StepsRemember | native/src/training/nn_v2_optimizer.h:346-415 | Exactly the histories of gradient-bearing parameters gain one entry each |
| OptimizerSteps.StepsFrom | native/src/training/nn_v2_optimizer.h:346-415 | Each gradient-bearing parameter steps from the contents its predecessors left in its storage, and the result stays until the next parameter that shares it |
| OptimizerSteps.StepAlone | native/src/training/nn_v2_optimizer.h:346-415 | A parameter that alone owns its lineage moves one version and takes exactly the prescribed step from where it was |
| OptimizerSteps.AdamElement | native/src/training/nn_v2_optimizer.h:387-412 | In plain arithmetic: the moments are beta m + (1 - beta) e and beta v + (1 - beta) e e, with coupled weight decay in e for Adam, and the value falls by the rate times the corrected first moment over the square root of the corrected second one plus epsilon, from a value shrunk by decoupled weight decay for AdamW |
| OptimizerSteps.SgdElement | native/src/training/nn_v2_optimizer.h:367-380 | In plain arithmetic: without momentum the value falls by the rate times the gradient with weight decay, with momentum by the rate times the buffer, which becomes momentum times itself plus that gradient |
| Optimizers.Optimizer.CorrectedMoments | native/src/training/nn_v2_optimizer.h:397-410 | In every reachable state the corrected first moment is a combination of delivered gradients with nonnegative weights, the corrected second moment is nonnegative and, the square root being nonnegative, the step's denominator is positive |
| Moments.BiasCorrection | native/src/training/nn_v2_optimizer.h:383-407 | After k of t steps delivered a gradient, the weights total (1 - b^k) / (1 - b^t), at most one, and one exactly when no step was skipped or b is zero |
| Moments.PowerAdd | native/src/training/nn_v2_optimizer.h:383-386 | Powers of the decay rates: exponents add, the zeroth power is one and the first the rate itself |
| Moments.DecayedIsWeighted | native/src/training/nn_v2_optimizer.h:397-404 | The recursively updated moment is the weighted sum of all past gradients |
| Moments.CorrectedBetween | native/src/training/nn_v2_optimizer.h:403-407 | The corrected moment lies between the smallest and the largest gradient, with zero among them if a step was skipped |
| Optimizers.Create | native/src/training/nn_v2_optimizer.h:217-276 | Succeeds exactly for a positive rate, nonnegative decay and momentum, decay rates in [0, 1) and positive epsilon, and distinct tensors of which some are trainable and all trainable ones contiguous; the optimizer has them as parameters, each once and in order, and has not stepped |
| Optimizers.CreateForModule | native/src/training/training_bridge_stub.cc:255-315 | The optimizer of a module succeeds exactly for acceptable settings and runs the same step, over the module's parameters; for SGD it keeps no second moments, which no step reads, so from equal states both kinds take the same steps |
| Optimizers.CollectParameters | native/src/training/nn_v2_optimizer.h:101-151 | Succeeds exactly for live handles of distinct tensors of which one requires gradients; the result holds exactly the tensors that do, each once, in the order in which the handles name them |
| Optimizers.TrainableOnce | native/src/training/nn_v2_optimizer.h:130-142 | The trainable ones among distinct tensors are listed once each and in their order |
| Optimizers.CreatedStepsOnce | native/src/training/nn_v2_optimizer.h:339-417 | A created optimizer steps a parameter that has a gradient and storage of its own exactly once per step: its version moves by one |
| Optimizers.Optimizer.ZeroGrad | native/src/training/nn_v2_optimizer.h:320-337 | Drops the gradients of the parameters and changes nothing else |
| Ownership.CountingIsReaching | native/src/memory/cpu_storage.cc:10-16 | What reference counting keeps alive is exactly what the references from outside reach: the recorded graph cannot keep itself alive |
| Ownership.CountsBalance | native/src/memory/cpu_storage.cc:10-16 | Exact counts, which every operation of the heap keeps, are the balance that the result above is about |
| Ownership.AliveIsReachable | native/src/memory/cpu_storage.cc:10-16 | The tensors with a positive count are exactly those reached from the references the heap is held by |
| Ownership.LiveBytesExact | native/src/memory/cpu_storage.cc:10-16 | The byte counter is four bytes for every element of the storages of reached tensors, each storage once, and of their gradients |
| Ownership.DependenceAlive | native/src/autograd/autograd.h:806-825 | Everything a held root depends on is alive, so a backward pass never meets a destroyed tensor |
| Ownership.AllReclaimed | native/src/memory/cpu_storage.cc:10-16 | When no reference from outside is left, the byte counter is zero |
| Memory.AddedLedger | native/src/memory/cpu_storage.cc:10-12 | Counts and byte counter stay exact when a tensor with storage of its own is created |
| Memory.AttachedLedger | native/src/autograd/autograd.h:271-279 | Counts stay exact when a node takes references to its operands, also to the same one twice |
| Memory.DestroyedLedger | native/src/memory/cpu_storage.cc:14-16 | Counts and byte counter stay exact when a tensor loses its last reference: its storage goes with its last tensor, its gradient goes, and its references to operands are left to be dropped |
| Holdings.HeldIfReached | native/src/runtime/handle_registry.cc:53-79 | Between calls a tensor is held from outside exactly if a tensor handle names it or a module or optimizer that a handle reaches holds it |
| Engine.System.Run | native/src/c_api.cc:492-504 | Any list of calls, on tensors, modules and optimizers, succeeding or failing, keeps every count exact; the byte counter is afterwards four times the total length of the storages, gradients included, reached from the handles, and zero if there is no handle |
| Engine.System.RunThenBackward | native/src/training/training_c_api.cc:182-189 | Any list of calls followed by a backward pass that reports success: every operator the root depends on was differentiated at operand values of some moment of the run at which it was recorded, and in every direction the leaf gradients gained the derivative of the root, less the cross-entropy gaps |
| Engine.System.LiveBytesOfHandles | native/src/c_api.cc:492-504 | In every state between calls the byte counter is four times the total length of what the handles reach |
| Engine.System.NothingLeft | native/src/c_api.cc:492-504 | With an empty handle table the byte counter is zero |
| Engine.System.ReleaseHandle | native/src/runtime/handle_registry.cc:53-79 | Releasing follows the registry's transition; with the last reference to a handle what it named is dropped, and the invariant holds again |
| Engine.System.DropObject | native/src/runtime/handle_registry.cc:70-76 | Dropping a module or optimizer: with the last reference its references to tensors and to its module are dropped, module by module, and counts stay exact |
| Engine.System.HandlesAreGood | native/src/c_api.cc:31-35 | Registering keeps, for every live tensor handle, that it names a tensor of the heap and holds it |
| Engine.System.Compute | native/src/c_api.cc:334-437 | A request through handles succeeds exactly if they name tensors on which it is allowed and a handle can be issued; sums, products, matrix products and losses take both tensors that the two handles name; the result has the elements the request means and a node that names exactly those operands at their present versions, and its handle can be used at once; a refused request changes nothing |
| Operations.Evaluate | native/src/c_api.cc:40-70 | Which requests are allowed, and the operator, operands, shape and elements of the result of each |
| Operations.AnsweredIsFulfilled | native/src/c_api.cc:334-437 | The result of every request, element by element in plain arithmetic, and the node that is recorded for it, if and only if an operand requires gradients |
| Meanings.EvalMeans | native/src/backends/cpu/cpu_backend.cc:156-298 | Every operator's value in plain arithmetic: element by element for sums, products, activations, transposes, bias and gated rows; matrix products, sums and losses as running totals from zero |
| Meanings.MatmulMeans | native/src/backends/cpu/cpu_backend.cc:283-292 | Each entry of a product is the running total of the products along its row and column |
| Meanings.CrossEntropyMeans | native/src/training/training_bridge_stub.cc:554-575 | The loss is the mean of minus target times log-softmax, with row maxima that are the largest logits of their rows and denominators that are running totals of shifted exponentials |
| Engine.System.CreateTensor | native/src/c_api.cc:137-171 | Succeeds exactly for a valid shape with as many values while handles can be issued; the new handle names a new tensor with those values and can be used at once, and the byte counter grows by four for each value |
| Engine.System.RunBackward | native/src/training/training_c_api.cc:182-189 | Succeeds exactly for the handle of a one-element tensor that requires gradients and whose dependencies' saved versions are current; then the leaves it depends on have gained their adjoints; otherwise nothing changes |
| Engine.System.Assign | native/src/training/training_c_api.cc:134-140 | Batch assignment through the table the calls keep: exact acceptance, simultaneous effect, nothing on failure |
| Engine.System.SetRequires | native/src/training/training_c_api.cc:171-180 | Succeeds exactly for the handle of a tensor that was not computed; no other tensor's metadata changes |
| Engine.System.CreateModule | native/src/training/training_bridge_stub.cc:584-635 | Succeeds exactly for a representable configuration while handles can be issued; the new handle names a module whose parameters are leaves with the given values |
| Engine.System.Forward | native/src/training/training_bridge_stub.cc:637-664 | Succeeds exactly for handles of a module and a matrix of its width with a representable result; the new handle names input times weight, entry by entry a running total of products, plus the bias on every row, and what there was is untouched |
| Engine.System.ParameterAt | native/src/training/training_bridge_stub.cc:704-724 | A new handle to the module's own parameter, not to a copy: index 0 is the weight and index 1 the bias; fails exactly for a bad handle, an index out of range or exhausted handles |
| Engine.System.LoadModule | native/src/training/training_bridge_stub.cc:782-842 | Loading through a handle: succeeds exactly on files the module accepts, with the effect of a load on every alias in the heap; otherwise nothing changes |
| Engine.System.SaveModule | native/src/training/training_bridge_stub.cc:750-780 | Writes exactly the printed form of the parameters as the heap holds them |
| Engine.System.CreateOptimizer | native/src/training/nn_v2_optimizer.h:217-281 | Succeeds exactly for settings and handles an optimizer accepts while handles can be issued; the new handle names an optimizer over the trainable tensors, which it keeps alive |
| Engine.System.CreateModuleOptimizer | native/src/training/training_bridge_stub.cc:255-319 | The same for the optimizer of a module, which keeps the module alive |
| Engine.System.StepOptimizer | native/src/training/training_bridge_stub.cc:890-972 | A step through a handle of either kind is the fold over the optimizer's parameters, from the heap and the histories before, and updates every stored element of parameters with storage of their own by the rule |
| Engine.System.ClearGradients | native/src/training/training_bridge_stub.cc:879-888 | Drops exactly the gradients of the optimizer's parameters |
| Engine.System.Retain | native/src/c_api.cc:466-471 | Retaining follows the registry's transition and keeps the invariant |
| Graphs.SweepConserves | native/src/autograd/autograd.h:868-905 | The sweep moves adjoint mass towards the leaves without losing any: the pairing of all pending adjoints with tangents is the same before and after |
| Backward.Visit | native/src/autograd/autograd.h:873-904 | Processing one tensor publishes into it exactly if it is a leaf that requires gradients, delivers its contributions exactly if it was computed, and leaves graph and version checks as they were |
| Backward.AccumulateLeaf | native/src/autograd/autograd.h:827-830 | Adds an adjoint of any layout to the leaf's gradient, starting one in canonical layout if there is none, and changes no other metadata |
| Backward.ValidateAll | native/src/autograd/autograd.h:847-862 | Passes exactly when the saved versions of every listed tensor are current |
| TopologyBuilder.TopologyOf | native/src/autograd/autograd.h:841-843 | The order for a root: dependencies before users, root last, nothing unrelated listed |
| Soundness.GradientOfProgram | native/src/autograd/autograd.h:832-907 | With unmoved results, forward mode at the stored values is the derivative of the program |
| Duals.DualValue | native/src/autograd/autograd.h:418-801 | The dual-number form of every operation carries the value its forward loop computes, so its tangent is a derivative of the same program |
| Adjoints.MultiplyAdjoint | native/src/autograd/autograd.h:451-488 | The two element-wise products are the adjoint of multiplication, also when both operands are the same tensor |
| Adjoints.ActivationAdjoint | native/src/autograd/autograd.h:557-598 | Scaling by the coded slope is the adjoint of an element-wise activation |
| Adjoints.AddAdjoint | native/src/autograd/autograd.h:441-450 | Copying the gradient to both operands is the adjoint of addition |
| Adjoints.SumAdjoint | native/src/autograd/autograd.h:489-498 | Broadcasting the scalar gradient is the adjoint of summation |
| Adjoints.TransposeAdjoint | native/src/autograd/autograd.h:434-440 | Transposing the gradient is the adjoint of transposition |
| Adjoints.BiasAdjoint | native/src/autograd/autograd.h:764-801 | Column sums together with the unchanged gradient are the adjoint of the bias addition |
| LossAdjoints.MseAdjoint | native/src/autograd/autograd.h:645-684 | The scaled differences of both signs are the adjoint of the mean squared error |
| BackwardKernels.TransposeKernel | native/src/autograd/autograd.h:372-395 | The loop produces the transpose of the gradient |
| BackwardKernels.ActivationVjpKernel | native/src/autograd/autograd.h:569-592 | The loop multiplies the gradient by the activation's slope at the operand |
| BackwardKernels.MatmulLeftKernel | native/src/autograd/autograd.h:521-531 | The loops produce the gradient times the transposed right operand |
| BackwardKernels.MatmulRightKernel | native/src/autograd/autograd.h:539-549 | The loops produce the transposed left operand times the gradient |
| BackwardKernels.BiasVjpKernel | native/src/autograd/autograd.h:787-794 | The accumulating loop produces the column sums |
| BackwardKernels.SwiGluVjpKernel | native/src/autograd/autograd.h:619-638 | Every row's two halves receive the derivatives of the gated product |
| BackwardKernels.ScaledDifferenceKernel | native/src/autograd/autograd.h:661-678 | The loop produces scaled differences of predictions and targets |
| BackwardKernels.LogitsVjpKernel | native/src/autograd/autograd.h:707-728 | The row loops produce scaled probability minus target |
| BackwardKernels.TargetVjpKernel | native/src/autograd/autograd.h:735-756 | The row loops produce scaled negative log-probabilities |
| ForwardKernels.AddKernel | native/src/backends/cpu/cpu_backend.cc:178-181 | Element-wise sum |
| ForwardKernels.MultiplyKernel | native/src/backends/cpu/cpu_backend.cc:207-213 | Element-wise product |
| ForwardKernels.SumKernel | native/src/backends/cpu/cpu_backend.cc:234-235 | The running total is the sum of all elements |
| ForwardKernels.UnaryKernel | native/src/training/nn_v2_runtime.h:61-63 | Every element is the activation of the corresponding input element |
| ForwardKernels.SwiGluKernel | native/src/training/nn_v2_runtime.h:111-120 | Every output element is SiLU of the left half times the right half of its row |
| ForwardKernels.BiasKernel | native/src/training/training_bridge_stub.cc:229-235 | The in-place row loops add the bias of its column to each element |
| ForwardKernels.MseKernel | native/src/training/training_bridge_stub.cc:509-516 | The accumulated loss is the mean squared difference |
| CpuBackend.FromData | native/src/backends/cpu/cpu_backend.cc:98-105 | Succeeds exactly for a valid shape with as many values; a new tensor with storage of its own |
| TrainingBridge.LinearForward | native/src/training/training_bridge_stub.cc:637-664 | Succeeds exactly for a rank-two input of matching width and a representable result; records the product and, with a bias, the bias addition, and leaves every other tensor as it was |
| TrainingBridge.LinearMeaning | native/src/training/training_bridge_stub.cc:637-664 | The result is input times weight plus the bias on every row, and all tensors there were are untouched |
| TrainingBridge.CloneDetached | native/src/autograd/autograd.h:207-213 | Equal logical values in new storage with new version and identity and no history |
| TrainingBridge.Transfer | native/src/training/training_bridge_stub.cc:430-449 | A copy in new storage, recorded as the identity |
| TrainingBridge.WithRequiresGrad | native/src/autograd/autograd.h:230-240 | A detached copy that is a leaf with the given flag |
| Heap.TensorHeap.NewTensor | native/src/backends/cpu/cpu_backend.cc:18-44 | A tensor with storage, version and identity shared with no other; the byte counter grows by four for each value |
| Heap.TensorHeap.NewView | native/src/backends/cpu/cpu_backend.cc:46-59 | A tensor sharing storage, version and identity with its source; nothing else changes |
| Heap.TensorHeap.LogicalValues | native/src/autograd/autograd.h:141-159 | Reading through any layout never fails and gives the logical values |
| Heap.TensorHeap.HasDirectAccess | native/src/autograd/autograd.h:87-139 | Direct access is granted exactly to contiguous tensors, and then storage order is logical order |
| Layouts.LayoutInjective | native/src/tensor/tensor.cc:59-71 | No two logical elements share a storage position |
| Assignment.Resolve | native/src/training/nn_v2_state.h:231-269 | Accepts exactly batches of named tensors with pairwise equal shapes and targets of distinct identity |
| Assignment.Stage | native/src/training/nn_v2_state.h:281-288 | Reads every source before any write; fails exactly if some target is not contiguous |
| Assignment.Commit | native/src/training/nn_v2_state.h:290-295 | Writes each target, moves its lineage by one version and drops its gradient; storage of other lineages is untouched |
| HandleRegistry.Registry.InsertItem | native/src/runtime/handle_registry.cc:12-35 | Fails exactly when the identifiers are exhausted, and then changes no entry; otherwise issues the next identifier with one reference to the item |
| HandleRegistry.Registry.RetainHandle | native/src/runtime/handle_registry.cc:37-51 | Adds one reference exactly to a live handle of the expected type below the largest count, and otherwise changes nothing |
| HandleRegistry.Registry.ReleaseHandle | native/src/runtime/handle_registry.cc:53-79 | Drops one reference exactly of a live handle of the expected type, and removes the entry with the last one |
| HandleRegistry.Registry.Lookup | native/src/runtime/handle_registry.h:32-56 | Finds exactly nonzero live handles of the expected type, and gives the item they were issued for |
| LinearModules.SaveTensor | native/src/training/training_bridge_stub.cc:335-360 | Appends rank, dimensions, count and elements; fails exactly when the contents are not directly accessible |
| ByteCodec.InStream.ReadScalar | native/src/training/training_bridge_stub.cc:328-333 | Reads the next little-endian field, failing exactly on a short read |
| OptimizerSteps.StepElements | native/src/training/nn_v2_optimizer.h:366-413 | Every element is updated like that, with the moments that are stored for it, and the moments remain those of the histories of gradients |
| Optimizers.InitialMoments | native/src/training/nn_v2_optimizer.h:153-172 | Zero moments of the parameters' sizes; fails exactly if some parameter is not contiguous |
| Optimizers.ClearAll | native/src/training/nn_v2_optimizer.h:333-335 | Drops the gradients of the listed tensors only |
| Publication.PublishedPairing | native/src/autograd/autograd.h:827-830 | Adding adjoints to leaf gradients adds their pairing with any tangents, whether a gradient existed before or not |
| Transitions.AttachOk | native/src/autograd/autograd.h:255-283 | Recording a freshly computed result keeps the heap's invariant |

## Left out

- Floating-point rounding, NaN and infinities: values are reals, so sums may be reordered; `Coding` takes each word to a real, and the copying results ask that distinct words have distinct values.
- HandleRegistry.Registry.Count: the registry is a sequential object; each public call is one atomic step and mutexes are not modelled.
- Shared pointers: an index into the heap's tables stands for a pointer, tables only grow, and a destroyed tensor is one with no references; adjoints and other temporaries of a call in progress are values and are not counted in the live bytes.
- Engine.System.Run: entries of the registry for inference sessions and reserved kinds own nothing here, and reading a checkpoint from disk is a sequence of bytes given to the call.
- Engine.System.CreateModule: the initial values are parameters of the call in place of the random generator.
- Aliasing of result buffers: forward and backward loops fill value sequences in place of the original's freshly allocated vectors, which nothing else can see.
- Byte order: checkpoints are little-endian, as on the supported hosts; the original writes native order.
- Allocation failure, null pointers, data types and device codes: single-branch checks.
- Version and identity counters are unbounded; the registry's exhaustion check is kept.
- The scalar error messages and the choice between error codes where two demands fail at once.
- LibTorch and ONNX Runtime backends, the C API's argument checks, dispatch, filled tensors, module training mode and device transfer beyond the CPU.
