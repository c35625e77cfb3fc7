/** Tensor shapes and the element count the constructor caches. */
module Shapes {

  /** Largest value of the 32-bit C++ `int` used for extents and for the element count. */
  const IntMax: int := 0x7fff_ffff

  /** The 32-bit signed integers. */
  newtype Int32 = x: int | -0x8000_0000 <= x <= 0x7fff_ffff

  /** Product of the extents, folded from the left exactly as the constructor's
      loop multiplies them; the empty shape has product 1. */
  function Product(shape: seq<int>): int
  {
    if |shape| == 0 then 1 else Product(shape[..|shape| - 1]) * shape[|shape| - 1]
  }

  /** Shapes the constructor handles without overflow: every extent is a
      non-negative `int`, and every running product of the loop fits in an `int`. */
  predicate ValidShape(shape: seq<int>)
  {
    && (forall i :: 0 <= i < |shape| ==> 0 <= shape[i] <= IntMax)
    && (forall k :: 0 <= k <= |shape| ==> Product(shape[..k]) <= IntMax)
  }

  /** With no negative extent the product is never negative. */
  lemma {:induction false} ProductNonNegative(shape: seq<int>)
    requires forall i :: 0 <= i < |shape| ==> 0 <= shape[i]
    ensures 0 <= Product(shape)
  {
    if |shape| > 0 {
      ProductNonNegative(shape[..|shape| - 1]);
    }
  }

  /** With only positive extents the product is positive. */
  lemma {:induction false} ProductPositive(shape: seq<int>)
    requires forall i :: 0 <= i < |shape| ==> 0 < shape[i]
    ensures 0 < Product(shape)
  {
    if |shape| > 0 {
      ProductPositive(shape[..|shape| - 1]);
    }
  }

  /** The element count of a valid shape lies in the range of an `int`. */
  lemma {:induction false} ProductBounds(shape: seq<int>)
    requires ValidShape(shape)
    ensures 0 <= Product(shape) <= IntMax
  {
    assert shape[..|shape|] == shape;
    ProductNonNegative(shape);
  }

  /** For shapes of positive extents the running products only grow, so it is
      enough that the whole product fits: no intermediate product overflows. */
  lemma {:induction false} PositiveShapeIsValid(shape: seq<int>)
    requires forall i :: 0 <= i < |shape| ==> 0 < shape[i] <= IntMax
    requires Product(shape) <= IntMax
    ensures ValidShape(shape)
  {
    if |shape| > 0 {
      var init := shape[..|shape| - 1];
      var last := shape[|shape| - 1];
      ProductPositive(init);
      assert Product(init) <= Product(init) * last == Product(shape);
      PositiveShapeIsValid(init);
      forall k | 0 <= k <= |shape|
        ensures Product(shape[..k]) <= IntMax
      {
        if k < |shape| {
          assert shape[..k] == init[..k];
        } else {
          assert shape[..k] == shape;
        }
      }
    }
  }

  /** The constructor's size loop, run in 32-bit arithmetic: on a valid shape
      no multiplication overflows, and the count is the product of the extents. */
  method ComputeSize(shape: seq<int>) returns (size: Int32)
    requires ValidShape(shape)
    ensures size as int == Product(shape)
    ensures 0 <= size
  {
    size := 1;
    var i := 0;
    while i < |shape|
      invariant 0 <= i <= |shape|
      invariant size as int == Product(shape[..i])
    {
      assert shape[..i + 1][..i] == shape[..i];
      ProductNonNegative(shape[..i + 1]);
      assert Product(shape[..i + 1]) <= IntMax;
      size := size * shape[i] as Int32;
      i := i + 1;
    }
    assert shape[..|shape|] == shape;
    ProductBounds(shape);
  }
}
