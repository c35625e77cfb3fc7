/** The standalone `add_tensors` extension function: elementwise addition of
    two dense arrays handed over as flat buffers. */
module TensorAdd {
  import opened Outcomes
  import opened Shapes

  /** An array as its buffer description exposes it: the extents and the
      elements in storage order. */
  datatype Buffer = Buffer(shape: seq<int>, items: seq<real>)

  /** The element count of a buffer is the product of its extents. */
  predicate WellFormed(b: Buffer)
  {
    && (forall i :: 0 <= i < |b.shape| ==> 0 <= b.shape[i])
    && Product(b.shape) == |b.items|
  }

  /** Throws `runtime_error` when the element counts differ; the extents are
      never compared, so arrays of different shapes but equal counts are
      added. The result is a new one-dimensional array with as many elements
      as the first input, element i being the sum of the inputs' elements i. */
  method AddTensors(tensor1: Buffer, tensor2: Buffer) returns (r: Result<Buffer>)
    requires WellFormed(tensor1) && WellFormed(tensor2)
    ensures r.Throw? <==> |tensor1.items| != |tensor2.items|
    ensures r.Throw? ==> r.error == RuntimeError
    ensures r.Ok? ==> WellFormed(r.value) && r.value.shape == [|tensor1.items|]
    ensures r.Ok? ==> |r.value.items| == |tensor1.items|
    ensures r.Ok? ==>
      forall i :: 0 <= i < |tensor1.items| ==> r.value.items[i] == tensor1.items[i] + tensor2.items[i]
  {
    if |tensor1.items| != |tensor2.items| {
      return Throw(RuntimeError);
    }
    var n := |tensor1.items|;
    var result := new real[n];
    var i := 0;
    while i < n
      invariant 0 <= i <= n
      invariant forall j :: 0 <= j < i ==> result[j] == tensor1.items[j] + tensor2.items[j]
    {
      result[i] := tensor1.items[i] + tensor2.items[i];
      i := i + 1;
    }
    assert [n][..0] == [];
    return Ok(Buffer([n], result[..]));
  }
}
