/** The `Tensor` value type: a shape, the cached element count, an always
    present host buffer, an optional device buffer and a device tag, with its
    construction, copy, elementwise arithmetic, initialisation, guarded
    indexing and device migration.

    Two facts about the build and the machine are parameters rather than
    constants, so that every contract covers both builds:
    - `cudaEnabled` is the `USE_CUDA` compile flag;
    - `uninit` is the unknown content of freshly allocated device memory. */
module Tensors {
  import opened Outcomes
  import opened Shapes
  import opened Devices
  import opened Buffers

  /** `deviceData` is the device pointer: `None` is the null handle, and in a
      build without CUDA the field does not exist, which is also `None`. */
  datatype Tensor = Tensor(
    shape: seq<int>,
    size: int,
    data: seq<real>,
    deviceData: Option<seq<real>>,
    device: Device)

  /** What every tensor keeps from construction on, whatever the build:
      the cached count is the product of the shape, the host buffer holds
      exactly that many elements, and so does a device buffer when present. */
  predicate WellFormed(t: Tensor)
  {
    && ValidShape(t.shape)
    && t.size == Product(t.shape)
    && |t.data| == t.size
    && t.device.WellFormed()
    && (t.deviceData.Some? ==> |t.deviceData.value| == t.size)
  }

  /** `WellFormed`, plus the device buffer facts of the build: without CUDA
      there is never a device buffer, and with CUDA a tensor tagged "gpu"
      always has one. */
  predicate Valid(t: Tensor, cudaEnabled: bool)
  {
    && WellFormed(t)
    && (!cudaEnabled ==> t.deviceData.None?)
    && (cudaEnabled && t.device == Gpu ==> t.deviceData.Some?)
  }

  /** The constructor's default device argument. */
  const DefaultDeviceTag: string := "cpu"

  /** Construction: the count is the product of the extents, the host buffer
      is value-initialised to zeros, and a device buffer is allocated exactly
      when CUDA is built in and the tag is "gpu". */
  function Construct(shape: seq<int>, deviceTag: string, cudaEnabled: bool, uninit: int -> real): (t: Tensor)
    requires ValidShape(shape)
    ensures Valid(t, cudaEnabled)
    ensures t.shape == shape && t.size == Product(shape)
    ensures forall i :: 0 <= i < t.size ==> t.data[i] == 0.0
    ensures t.device == Parse(deviceTag)
    ensures t.deviceData.Some? <==> cudaEnabled && deviceTag == "gpu"
  {
    ProductBounds(shape);
    var size := Product(shape);
    Tensor(
      shape,
      size,
      Zeros(size),
      if cudaEnabled && deviceTag == "gpu" then Some(Alloc(size, uninit)) else None,
      Parse(deviceTag))
  }

  /** Construction without a device argument: on the host, and with a null
      device handle, so a first migration to the GPU has to allocate. */
  function ConstructOnDefaultDevice(shape: seq<int>, cudaEnabled: bool): (t: Tensor)
    requires ValidShape(shape)
    ensures Valid(t, cudaEnabled)
    ensures t.shape == shape && t.size == Product(shape)
    ensures forall i :: 0 <= i < t.size ==> t.data[i] == 0.0
    ensures t.device == Cpu
    ensures t.deviceData.None?
  {
    Construct(shape, DefaultDeviceTag, cudaEnabled, _ => 0.0)
  }

  /** `is_on_gpu`: the stored tag string equals "gpu". */
  function IsOnGpu(t: Tensor): (b: bool)
    requires t.device.WellFormed()
    ensures b <==> Name(t.device) == "gpu"
  {
    t.device == Gpu
  }

  /** The copy constructor: same shape, count, host data and tag. Only a copy
      of a GPU-resident tensor gets a device buffer, newly allocated and
      filled with the original's device contents; any other copy starts with
      a null handle, even when the original retains a device buffer. */
  function Copy(t: Tensor, cudaEnabled: bool, uninit: int -> real): (r: Tensor)
    requires Valid(t, cudaEnabled)
    ensures Valid(r, cudaEnabled)
    ensures r.shape == t.shape && r.size == t.size && r.data == t.data && r.device == t.device
    ensures cudaEnabled && t.device == Gpu ==> r.deviceData == t.deviceData
    ensures !(cudaEnabled && t.device == Gpu) ==> r.deviceData.None?
  {
    var deviceData :=
      if cudaEnabled && IsOnGpu(t) then
        var buffer := Alloc(t.size, uninit);
        MemcpyWhole(buffer, t.deviceData.value);
        Some(Memcpy(buffer, t.deviceData.value, t.size))
      else
        None;
    t.(deviceData := deviceData)
  }

  /** The body shared by `add` and `multiply`. The sizes must agree. The
      result is constructed with the receiver's shape and tag; only on the
      host is it filled, pointwise from the two host buffers; on any other
      device the kernel is missing and the result keeps its zeros. */
  function Elementwise(op: Op, a: Tensor, b: Tensor, cudaEnabled: bool, uninit: int -> real): (r: Result<Tensor>)
    requires Valid(a, cudaEnabled) && Valid(b, cudaEnabled)
    ensures r.Throw? <==> a.size != b.size
    ensures r.Throw? ==> r.error == InvalidArgument
    ensures r.Ok? ==> Valid(r.value, cudaEnabled)
    ensures r.Ok? ==> r.value.shape == a.shape && r.value.size == a.size && r.value.device == a.device
    ensures r.Ok? && a.device == Cpu ==>
      forall i :: 0 <= i < a.size ==> r.value.data[i] == Apply(op, a.data[i], b.data[i])
    ensures r.Ok? && a.device != Cpu ==> forall i :: 0 <= i < a.size ==> r.value.data[i] == 0.0
    ensures r.Ok? ==> (r.value.deviceData.Some? <==> cudaEnabled && a.device == Gpu)
  {
    if a.size != b.size then
      Throw(InvalidArgument)
    else
      ParseName(a.device);
      var result := Construct(a.shape, Name(a.device), cudaEnabled, uninit);
      if a.device == Cpu then Ok(result.(data := Zip(op, a.data, b.data))) else Ok(result)
  }

  /** `add`: rejects differing sizes with `invalid_argument`; otherwise a new
      tensor of the receiver's shape and device whose host elements, on the
      host, are the pointwise sums, and are zero on any other device. The
      other operand's host buffer is read whatever its own residency. */
  function Add(a: Tensor, b: Tensor, cudaEnabled: bool, uninit: int -> real): (r: Result<Tensor>)
    requires Valid(a, cudaEnabled) && Valid(b, cudaEnabled)
    ensures r.Throw? <==> a.size != b.size
    ensures r.Throw? ==> r.error == InvalidArgument
    ensures r.Ok? ==> Valid(r.value, cudaEnabled)
    ensures r.Ok? ==> r.value.shape == a.shape && r.value.size == a.size && r.value.device == a.device
    ensures r.Ok? && a.device == Cpu ==>
      forall i :: 0 <= i < a.size ==> r.value.data[i] == a.data[i] + b.data[i]
    ensures r.Ok? && a.device != Cpu ==> forall i :: 0 <= i < a.size ==> r.value.data[i] == 0.0
    ensures r.Ok? ==> (r.value.deviceData.Some? <==> cudaEnabled && a.device == Gpu)
  {
    Elementwise(Plus, a, b, cudaEnabled, uninit)
  }

  /** `multiply`: as `Add`, with products in place of sums. */
  function Multiply(a: Tensor, b: Tensor, cudaEnabled: bool, uninit: int -> real): (r: Result<Tensor>)
    requires Valid(a, cudaEnabled) && Valid(b, cudaEnabled)
    ensures r.Throw? <==> a.size != b.size
    ensures r.Throw? ==> r.error == InvalidArgument
    ensures r.Ok? ==> Valid(r.value, cudaEnabled)
    ensures r.Ok? ==> r.value.shape == a.shape && r.value.size == a.size && r.value.device == a.device
    ensures r.Ok? && a.device == Cpu ==>
      forall i :: 0 <= i < a.size ==> r.value.data[i] == a.data[i] * b.data[i]
    ensures r.Ok? && a.device != Cpu ==> forall i :: 0 <= i < a.size ==> r.value.data[i] == 0.0
    ensures r.Ok? ==> (r.value.deviceData.Some? <==> cudaEnabled && a.device == Gpu)
  {
    Elementwise(Times, a, b, cudaEnabled, uninit)
  }

  /** `zero`: on the host every element becomes 0; on any other device the
      kernel is missing and nothing changes. Shape, count, tag and device
      buffer are never touched. */
  function Zero(t: Tensor): (r: Tensor)
    requires WellFormed(t)
    ensures WellFormed(r)
    ensures r.shape == t.shape && r.size == t.size && r.device == t.device && r.deviceData == t.deviceData
    ensures t.device == Cpu ==> forall i :: 0 <= i < t.size ==> r.data[i] == 0.0
    ensures t.device != Cpu ==> r == t
  {
    if t.device == Cpu then t.(data := Zeros(t.size)) else t
  }

  /** `random`: on the host element i becomes the i-th value drawn from the
      generator `draw`; on any other device nothing changes. Shape, count,
      tag and device buffer are never touched. */
  function Random(t: Tensor, draw: int -> real): (r: Tensor)
    requires WellFormed(t)
    ensures WellFormed(r)
    ensures r.shape == t.shape && r.size == t.size && r.device == t.device && r.deviceData == t.deviceData
    ensures t.device == Cpu ==> forall i :: 0 <= i < t.size ==> r.data[i] == draw(i)
    ensures t.device != Cpu ==> r == t
  {
    if t.device == Cpu then t.(data := seq(t.size, i => draw(i))) else t
  }

  /** Reading through `operator()`: a tensor tagged "gpu" throws
      `runtime_error`, an index at or past the count throws `out_of_range`,
      and otherwise the host element is returned. Any tag other than "gpu",
      including an unknown one, reads the host buffer. The source does not
      check for negative indices, so callers must not pass one. */
  function At(t: Tensor, index: int): (r: Result<real>)
    requires WellFormed(t)
    requires 0 <= index
    ensures r.Ok? <==> !IsOnGpu(t) && index < t.size
    ensures IsOnGpu(t) ==> r == Throw(RuntimeError)
    ensures !IsOnGpu(t) && t.size <= index ==> r == Throw(OutOfRange)
    ensures r.Ok? ==> r.value == t.data[index]
  {
    if t.device == Gpu then Throw(RuntimeError)
    else if index >= t.size then Throw(OutOfRange)
    else Ok(t.data[index])
  }

  /** Writing through the reference `operator()` returns: the same guards as
      `At`; on success only host element `index` changes. */
  function AssignAt(t: Tensor, index: int, v: real): (r: Result<Tensor>)
    requires WellFormed(t)
    requires 0 <= index
    ensures r.Ok? <==> !IsOnGpu(t) && index < t.size
    ensures IsOnGpu(t) ==> r == Throw(RuntimeError)
    ensures !IsOnGpu(t) && t.size <= index ==> r == Throw(OutOfRange)
    ensures r.Ok? ==> WellFormed(r.value)
    ensures r.Ok? ==> r.value.shape == t.shape && r.value.size == t.size
    ensures r.Ok? ==> r.value.device == t.device && r.value.deviceData == t.deviceData
    ensures r.Ok? ==> r.value.data[index] == v
    ensures r.Ok? ==> forall j :: 0 <= j < t.size && j != index ==> r.value.data[j] == t.data[j]
  {
    if t.device == Gpu then Throw(RuntimeError)
    else if index >= t.size then Throw(OutOfRange)
    else Ok(t.(data := t.data[index := v]))
  }

  /** `allocate_gpu_memory`: a fresh device buffer of `size` elements. */
  function AllocateGpuMemory(t: Tensor, uninit: int -> real): (r: Tensor)
    requires WellFormed(t)
    ensures WellFormed(r)
    ensures r.deviceData.Some?
    ensures r.(deviceData := t.deviceData) == t
  {
    t.(deviceData := Some(Alloc(t.size, uninit)))
  }

  /** `copy_to_gpu`: only from the host. The existing device buffer is
      reused, one is allocated only when the handle is null; the host data
      is copied over it and the tag becomes "gpu". The host buffer stays. */
  function CopyToGpu(t: Tensor, uninit: int -> real): (r: Tensor)
    requires Valid(t, true)
    ensures Valid(r, true)
    ensures t.device == Cpu ==>
      && r.device == Gpu
      && r.deviceData == Some(t.data)
      && r.(deviceData := t.deviceData, device := Cpu) == t
    ensures t.device != Cpu ==> r == t
  {
    if t.device == Cpu then
      var withBuffer := if t.deviceData.None? then AllocateGpuMemory(t, uninit) else t;
      MemcpyWhole(withBuffer.deviceData.value, t.data);
      withBuffer.(deviceData := Some(Memcpy(withBuffer.deviceData.value, t.data, t.size)), device := Gpu)
    else
      t
  }

  /** `copy_to_cpu`: only from the GPU. The device data is copied over the
      host buffer and the tag becomes "cpu"; the device buffer is kept. */
  function CopyToCpu(t: Tensor): (r: Tensor)
    requires Valid(t, true)
    ensures Valid(r, true)
    ensures t.device == Gpu ==>
      && r.device == Cpu
      && r.data == t.deviceData.value
      && r.(data := t.data, device := Gpu) == t
    ensures t.device != Gpu ==> r == t
  {
    if t.device == Gpu then
      MemcpyWhole(t.data, t.deviceData.value);
      t.(data := Memcpy(t.data, t.deviceData.value, t.size), device := Cpu)
    else
      t
  }

  /** The outcome of `to`: the receiver, changed in place, and the tensor
      returned by value, which is a copy of the changed receiver. */
  datatype Moved = Moved(receiver: Tensor, returned: Tensor)

  /** `to(target)`: a target equal to the current tag changes nothing. With
      CUDA built in, "gpu" runs `copy_to_gpu` and "cpu" runs `copy_to_cpu`;
      any other target, and every target in a build without CUDA, changes
      nothing. Shape and count never change, and the returned value is a
      copy of the receiver as it is afterwards. */
  function To(t: Tensor, targetTag: string, cudaEnabled: bool, uninit: int -> real): (m: Moved)
    requires Valid(t, cudaEnabled)
    ensures Valid(m.receiver, cudaEnabled) && Valid(m.returned, cudaEnabled)
    ensures m.receiver.shape == t.shape && m.receiver.size == t.size
    ensures Parse(targetTag) == t.device ==> m.receiver == t
    ensures !cudaEnabled ==> m.receiver == t
    ensures cudaEnabled && t.device == Cpu && targetTag == "gpu" ==>
      && m.receiver.device == Gpu
      && m.receiver.data == t.data
      && m.receiver.deviceData == Some(t.data)
    ensures cudaEnabled && t.device == Gpu && targetTag == "cpu" ==>
      && m.receiver.device == Cpu
      && m.receiver.data == t.deviceData.value
      && m.receiver.deviceData == t.deviceData
    ensures !(cudaEnabled && ((t.device == Cpu && targetTag == "gpu") || (t.device == Gpu && targetTag == "cpu"))) ==>
      m.receiver == t
    ensures m.returned.shape == m.receiver.shape && m.returned.size == m.receiver.size
    ensures m.returned.data == m.receiver.data && m.returned.device == m.receiver.device
    ensures m.returned.deviceData.Some? <==> cudaEnabled && m.receiver.device == Gpu
    ensures cudaEnabled && m.receiver.device == Gpu ==> m.returned.deviceData == m.receiver.deviceData
  {
    if targetTag == Name(t.device) then
      Moved(t, Copy(t, cudaEnabled, uninit))
    else
      var moved :=
        if !cudaEnabled then t
        else if targetTag == "gpu" then CopyToGpu(t, uninit)
        else if targetTag == "cpu" then CopyToCpu(t)
        else t;
      Moved(moved, Copy(moved, cudaEnabled, uninit))
  }
}
