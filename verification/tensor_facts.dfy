/** Properties that relate several tensor operations: migration round trips
    and idempotence, the copy constructor's independence, and how
    initialisation and indexed access interact. */
module TensorFacts {
  import opened Outcomes
  import opened Shapes
  import opened Devices
  import opened Buffers
  import opened Tensors

  /** Host to GPU and back restores the host data exactly; the device buffer
      allocated on the way is kept and holds the same data. */
  lemma MigrationRoundTrip(t: Tensor, uninit: int -> real)
    requires Valid(t, true) && t.device == Cpu
    ensures
      var there := To(t, "gpu", true, uninit).receiver;
      var back := To(there, "cpu", true, uninit).receiver;
      && there.device == Gpu
      && back.device == Cpu
      && back.data == t.data
      && back.shape == t.shape && back.size == t.size
      && back.deviceData == Some(t.data)
  {
  }

  /** The same round trip through the tensors `to` returns rather than the
      receivers: the returned GPU tensor is a copy with its own device buffer
      holding the data, and moving that copy back yields the original data. */
  lemma ReturnedCopiesRoundTrip(t: Tensor, uninit: int -> real)
    requires Valid(t, true) && t.device == Cpu
    ensures
      var onGpu := To(t, "gpu", true, uninit).returned;
      var backOnCpu := To(onGpu, "cpu", true, uninit).returned;
      && onGpu.device == Gpu
      && onGpu.deviceData == Some(t.data)
      && backOnCpu.device == Cpu
      && backOnCpu.data == t.data
      && backOnCpu.shape == t.shape
      && backOnCpu.deviceData.None?
  {
  }

  /** Migrating twice to the same target is migrating once. */
  lemma MigrationIdempotent(t: Tensor, targetTag: string, cudaEnabled: bool, uninit: int -> real)
    requires Valid(t, cudaEnabled)
    ensures
      var once := To(t, targetTag, cudaEnabled, uninit).receiver;
      To(once, targetTag, cudaEnabled, uninit).receiver == once
  {
    var once := To(t, targetTag, cudaEnabled, uninit).receiver;
    if once != t {
      assert once.device == Parse(targetTag);
    }
  }

  /** The unknown contents of device memory allocated during a migration
      never show: `to` gives the same receiver and the same returned copy
      whatever the allocator handed out, since every allocation is
      overwritten in full before it is read. */
  lemma MigrationIgnoresAllocatedContents(t: Tensor, targetTag: string, cudaEnabled: bool, u1: int -> real, u2: int -> real)
    requires Valid(t, cudaEnabled)
    ensures To(t, targetTag, cudaEnabled, u1) == To(t, targetTag, cudaEnabled, u2)
  {
  }

  /** A tensor constructed on the GPU has an uninitialised device buffer, and
      the zero and random operations do not touch it; moving it to the host
      therefore copies those unknown contents over the zeroed host buffer. */
  lemma GpuConstructionExposesUninitialisedMemory(shape: seq<int>, draw: int -> real, uninit: int -> real)
    requires ValidShape(shape)
    ensures
      var t := Zero(Random(Construct(shape, "gpu", true, uninit), draw));
      To(t, "cpu", true, uninit).receiver.data == Alloc(Product(shape), uninit)
  {
  }

  /** After a move to the GPU every index throws; after moving back every
      index reads what it read before the round trip. */
  lemma IndexGuardFollowsResidency(t: Tensor, index: int, uninit: int -> real)
    requires Valid(t, true) && t.device == Cpu
    requires 0 <= index < t.size
    ensures
      var there := To(t, "gpu", true, uninit).receiver;
      var back := To(there, "cpu", true, uninit).receiver;
      && At(there, index) == Throw(RuntimeError)
      && At(back, index) == At(t, index) == Ok(t.data[index])
  {
  }

  /** Zeroing twice is zeroing once. */
  lemma ZeroIdempotent(t: Tensor)
    requires WellFormed(t)
    ensures Zero(Zero(t)) == Zero(t)
  {
  }

  /** `zero` overwrites every element `random` wrote: nothing of the drawn
      values survives. */
  lemma ZeroErasesRandom(t: Tensor, draw: int -> real)
    requires WellFormed(t)
    ensures Zero(Random(t, draw)) == Zero(t)
  {
  }

  /** `random` overwrites every element, so what it leaves does not depend on
      whether the tensor was zeroed first. */
  lemma RandomOverwritesZero(t: Tensor, draw: int -> real)
    requires WellFormed(t)
    ensures Random(Zero(t), draw) == Random(t, draw)
  {
  }

  /** A write through `operator()` is seen by the next read at that index and
      by no read at another index. */
  lemma AssignThenRead(t: Tensor, index: int, v: real, other: int)
    requires WellFormed(t) && 0 <= index && 0 <= other
    requires AssignAt(t, index, v).Ok?
    ensures At(AssignAt(t, index, v).value, index) == Ok(v)
    ensures other != index ==> At(AssignAt(t, index, v).value, other) == At(t, other)
  {
  }

  /** A copy reads exactly like its original at every index. */
  lemma CopyReadsLikeOriginal(t: Tensor, index: int, cudaEnabled: bool, uninit: int -> real)
    requires Valid(t, cudaEnabled) && 0 <= index
    ensures At(Copy(t, cudaEnabled, uninit), index) == At(t, index)
  {
  }

  /** Copying a copy gives the same value as copying once. */
  lemma CopyOfCopy(t: Tensor, cudaEnabled: bool, uninit: int -> real)
    requires Valid(t, cudaEnabled)
    ensures Copy(Copy(t, cudaEnabled, uninit), cudaEnabled, uninit) == Copy(t, cudaEnabled, uninit)
  {
  }

  /** A [2, 3] tensor filled at random, copied, and the copy zeroed: the copy
      reads 0 at index 0, the original still reads its drawn value, and both
      keep the shape [2, 3]. */
  lemma CopyThenZeroLeavesOriginal(cudaEnabled: bool, draw: int -> real, uninit: int -> real)
    ensures ValidShape([2, 3])
    ensures
      var a := Random(ConstructOnDefaultDevice([2, 3], cudaEnabled), draw);
      var b := Zero(Copy(a, cudaEnabled, uninit));
      && At(b, 0) == Ok(0.0)
      && At(a, 0) == Ok(draw(0))
      && a.shape == b.shape == [2, 3]
  {
    PositiveShapeIsValid([2, 3]);
  }
}
