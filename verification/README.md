# Tensor core: a Dafny model

This project models the `Tensor` value type of the ML pipeline, plus the
standalone `add_tensors` extension function. A `Tensor` is a dense array of
floats. It holds a shape, a cached element count, a host buffer that always
exists, an optional device (GPU) buffer, and a device tag (`"cpu"`, `"gpu"`
or any other string). Its operations are:

- construction and copy;
- elementwise `add` and `multiply`;
- `zero` and `random`;
- guarded indexed access (`operator()`);
- migration between host and device with `to`.

The model is a set of pure functions over an immutable record.

- `shapes.dfy` (module `Shapes`): the constructor's size loop in 32-bit
  arithmetic, and the shapes for which that loop does not overflow.
- `devices.dfy` (module `Devices`): the device tag as `Cpu | Gpu | Other(name)`.
  Tag strings and devices map one-to-one, so the source's string
  comparisons become comparisons of devices.
- `buffers.dfy` (module `Buffers`): the memory primitives.
  - The host buffer is value-initialised to zeros.
  - A `cudaMalloc` allocation is a sequence whose contents are unknown.
  - `cudaMemcpy` copies one sequence over another.
- `tensor.dfy` (module `Tensors`): the record, its invariant and every operation.
- `tensor_facts.dfy` (module `TensorFacts`): properties that relate several
  operations, such as migration round trips, idempotence and copy independence.
- `tensor_add.dfy` (module `TensorAdd`): `add_tensors` as a method with a
  loop over flat buffers.
- `outcomes.dfy` (module `Outcomes`): `Option`, the C++ exception types, and
  `Result`, which holds either a value or the exception thrown instead.

Three things the C++ fixes at build time or leaves to the machine are
parameters. That way every contract covers both builds and all machine states.

- `cudaEnabled` is the `USE_CUDA` compile flag. Without it the device handle
  does not exist, which the model writes as `None`.
- `uninit: int -> real` stands for the unknown contents of freshly allocated
  device memory.
- `random` takes `draw: int -> real`, the values `rand()` yields in order.

Elements are `real`s. No floating-point rounding is claimed.

The model follows the code as written; in particular:

- No operation rejects operands on different devices. `add` and `multiply`
  read the other operand's host buffer whatever its residency.
- Without CUDA, `to("gpu")` does not fail. It changes nothing.
- Moving to the host keeps the device buffer.
- On the GPU, `add` and `multiply` return a result whose host buffer is all
  zeros. `zero` and `random` change nothing there.
- Indexing rejects only the exact tag `"gpu"`. Any other non-host tag reads
  the host buffer.
- The copy constructor gives a device buffer only to a copy of a GPU-resident
  tensor. A host-resident tensor that kept a device buffer is copied without
  one. Since `to` returns such a copy, its returned value can differ from the
  receiver in that respect.
- The constructor accepts the empty shape, with count 1, and zero extents,
  with count 0.

The helpers `Buffers.Zeros` (the value-initialising `resize`) and
`Buffers.Zip` (the pointwise loops of `add` and `multiply`) have no row of
their own. Their meaning is stated by the contracts of `Tensors.Construct`,
`Tensors.Add` and `Tensors.Multiply`.

## Model

| member | source | states |
|---|---|---|
| Shapes.ComputeSize | ml_pipeline/src/tensor.cpp:7-10 | the size loop, run in 32-bit `int` arithmetic, never overflows on a valid shape and yields the product of the extents |
| Shapes.ProductBounds | ml_pipeline/src/tensor.cpp:7-11 | the cached count of a valid shape is between 0 and INT_MAX, so `resize` gets a non-negative length |
| Shapes.ProductNonNegative | ml_pipeline/src/tensor.cpp:7-10 | with no negative extent the running product is never negative |
| Shapes.ProductPositive | ml_pipeline/src/tensor.cpp:7-10 | with only positive extents the running product is positive |
| Shapes.PositiveShapeIsValid | ml_pipeline/src/tensor.cpp:7-10 | for positive extents it is enough that the whole product fits in an `int`: no intermediate product of the loop overflows |
| Devices.Parse | ml_pipeline/include/tensor.h:21 | each tag string denotes exactly one device: Cpu iff the tag is "cpu", Gpu iff it is "gpu", otherwise Other carrying the tag |
| Devices.Name | ml_pipeline/include/tensor.h:21 | the stored tag string of a well-formed device parses back to that device; `ParseName` and `NameParse` are its round-trip partners |
| Devices.ParseName | ml_pipeline/include/tensor.h:21 | parsing a device's stored tag gives back that device |
| Devices.NameParse | ml_pipeline/include/tensor.h:21 | every tag string is the name of the device it parses to |
| Devices.SameTagSameDevice | ml_pipeline/src/tensor.cpp:141 | two devices have equal tag strings iff they are the same device, so comparing strings is comparing devices |
| Buffers.Alloc | ml_pipeline/src/tensor.cpp:116 | `cudaMalloc` gives a buffer of exactly the requested number of elements; the contract deliberately gives only the length, because the contents are unknown |
| Buffers.Memcpy | ml_pipeline/src/tensor.cpp:125 | a copy of `n` elements sets the first `n` destination elements to the source's and leaves the rest of the destination as it was |
| Buffers.MemcpyWhole | ml_pipeline/src/tensor.cpp:133 | copying a whole buffer over one of equal length leaves exactly the source; the destination's former contents are gone |
| Tensors.Construct | ml_pipeline/src/tensor.cpp:5-18 | the result satisfies the tensor invariant, with the given shape, count = product of the shape, every host element 0 and the parsed tag; a device buffer exists iff CUDA is built in and the tag is "gpu" |
| Tensors.ConstructOnDefaultDevice | ml_pipeline/include/tensor.h:19-24 | without a device argument the tensor is on the host with a null device handle |
| Tensors.IsOnGpu | ml_pipeline/include/tensor.h:41 | holds exactly when the stored tag string equals "gpu" |
| Tensors.Copy | ml_pipeline/src/tensor.cpp:30-38 | the copy has equal shape, count, host data and tag; with CUDA, a GPU-resident original's copy has a device buffer with the same contents, and any other copy has none |
| Tensors.Elementwise | ml_pipeline/src/tensor.cpp:41-74 | throws `invalid_argument` iff the counts differ; otherwise the result has the receiver's shape, count and device; on the host its element i is op(a[i], b[i]); elsewhere every element is 0 |
| Tensors.Add | ml_pipeline/src/tensor.cpp:41-56 | throws `invalid_argument` iff the counts differ; on the host result[i] = a[i] + b[i] for every i below the count; on another device the host result is all zeros; shape, count and device are the receiver's; the result has a device buffer iff CUDA is built in and the receiver is on the GPU |
| Tensors.Multiply | ml_pipeline/src/tensor.cpp:59-74 | the same as `Add` with result[i] = a[i] * b[i] |
| Tensors.Zero | ml_pipeline/src/tensor.cpp:77-87 | on the host every element becomes 0; on any other device the tensor is unchanged; shape, count, tag and device buffer never change |
| Tensors.Random | ml_pipeline/src/tensor.cpp:90-100 | on the host element i becomes the i-th drawn value; on any other device the tensor is unchanged; shape, count, tag and device buffer never change |
| Tensors.At | ml_pipeline/src/tensor.cpp:103-111 | reading succeeds iff the tag is not "gpu" and the index is below the count, and then returns the host element; "gpu" throws `runtime_error`, otherwise an index at or past the count throws `out_of_range` |
| Tensors.AssignAt | ml_pipeline/src/tensor.cpp:103-111 | a write through the returned reference has the same guards; on success exactly host element `index` changes, to the written value |
| Tensors.AllocateGpuMemory | ml_pipeline/src/tensor.cpp:115-117 | afterwards a device buffer exists, and nothing else about the tensor changes |
| Tensors.CopyToGpu | ml_pipeline/src/tensor.cpp:120-128 | from the host: the tag becomes "gpu", the device buffer holds exactly the host data, and the host buffer, shape and count stay; from any other device nothing changes |
| Tensors.CopyToCpu | ml_pipeline/src/tensor.cpp:131-136 | from the GPU: the host data becomes the device data, the tag becomes "cpu", and the device buffer is kept; from any other device nothing changes |
| Tensors.To | ml_pipeline/src/tensor.cpp:140-154 | a target equal to the current tag, any target without CUDA, and any move other than host to "gpu" or GPU to "cpu" leave the receiver unchanged. Host to "gpu" copies the data to the device; GPU to "cpu" copies it back and keeps the device buffer. Shape and count never change. The returned value is a copy of the changed receiver |
| TensorFacts.MigrationRoundTrip | ml_pipeline/src/tensor.cpp:120-154 | moving host to GPU and back restores the host data exactly, ends on the host and keeps a device buffer holding the same data |
| TensorFacts.ReturnedCopiesRoundTrip | ml_pipeline/src/tensor.cpp:30-38 | going through the values `to` returns also round-trips: the GPU copy has its own device buffer holding the data, and the copy returned on the way back holds the original data |
| TensorFacts.MigrationIdempotent | ml_pipeline/src/tensor.cpp:140-154 | migrating to the same target twice has the same effect as migrating once |
| TensorFacts.MigrationIgnoresAllocatedContents | ml_pipeline/src/tensor.cpp:120-126 | the unknown contents of memory allocated during `to` are never observable: every allocation is overwritten in full first |
| TensorFacts.GpuConstructionExposesUninitialisedMemory | ml_pipeline/src/tensor.cpp:13-17 | a tensor built on the GPU, even after `zero` and `random`, brings its uninitialised device contents to the host when moved there |
| TensorFacts.IndexGuardFollowsResidency | ml_pipeline/src/tensor.cpp:103-111 | after a move to the GPU every index throws `runtime_error`; after moving back every index reads what it read before |
| TensorFacts.ZeroIdempotent | ml_pipeline/src/tensor.cpp:77-87 | zeroing twice has the same effect as zeroing once |
| TensorFacts.ZeroErasesRandom | ml_pipeline/src/tensor.cpp:77-100 | `zero` after `random` has the same effect as `zero` alone: nothing drawn survives |
| TensorFacts.RandomOverwritesZero | ml_pipeline/src/tensor.cpp:77-100 | `random` after `zero` has the same effect as `random` alone: every element is overwritten |
| TensorFacts.AssignThenRead | ml_pipeline/src/tensor.cpp:103-111 | a write through `operator()` is seen by the next read at that index and leaves every other index's read unchanged |
| TensorFacts.CopyReadsLikeOriginal | ml_pipeline/src/tensor.cpp:30-38 | a copy returns the same result as its original at every index, including the same exception |
| TensorFacts.CopyOfCopy | ml_pipeline/src/tensor.cpp:30-38 | copying a copy gives the same value as copying once |
| TensorFacts.CopyThenZeroLeavesOriginal | ml_pipeline/src/tensor.cpp:30-38 | a random [2, 3] tensor, copied and the copy zeroed: the copy reads 0 at index 0, the original keeps its drawn value, and both have shape [2, 3] |
| TensorAdd.AddTensors | ml-pipeline/cpp/tensor_add.cpp:9-33 | throws `runtime_error` iff the element counts differ, and never compares extents; otherwise returns a new one-dimensional array with as many elements as the first input, where element i = tensor1[i] + tensor2[i]; the inputs are values and are not written |

## Left out

- The Python binding layer and its `to_numpy` export are not modelled. They are foreign-library plumbing.
- The benchmark and demo scripts are not modelled. They measure wall-clock time or only print.
- The CUDA runtime is not modelled as a resource. Device memory is an optional sequence with no pointer identity.
- Tensors.CopyToGpu: does not state that an existing device buffer is reused and that allocation happens only from a null handle. Without pointer identity, reuse and reallocation give the same value.
- Tensors.ConstructOnDefaultDevice: states the null device handle, but not that a first migration to the GPU allocates. That is again a fact about pointer identity.
- The destructor's `cudaFree` is not modelled. The model has no buffer lifetimes.
- A `cudaMemcpy` or `cudaMalloc` that fails is not modelled. The source ignores their return codes.
- Floating-point rounding is not modelled. Elements are reals.
- Tensors.Random: does not state that drawn values lie in [0, 1]. `rand()/RAND_MAX` is abstracted to an arbitrary value per element.
- Tensors.Construct: requires every extent between 0 and INT_MAX and every running product to fit in an `int`. Negative extents are excluded by choice. The source accepts them whenever the product is non-negative and fits: shape [-2, -3] gives a 6-element tensor. A negative product makes `resize` throw `length_error`. A running product past INT_MAX overflows, which is undefined behaviour.
- Tensors.At: requires a non-negative index. The source does not check negative indices and would read out of bounds.
- TensorAdd.AddTensors: reads each input as a contiguous flat buffer. Strided views, which the binding could hand over, are not modelled.
- The GPU kernels are not modelled. The source omits them; the model keeps their empty branches as written.
