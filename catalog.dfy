// The product catalogue: a fixed number of products for every size.

module Catalog {
  import opened Tables
  import opened Seqs

  /** Position of the `j`-th product of the `s`-th size. */
  function ProductPos(s: nat, j: nat, productsPerSize: nat): nat {
    s * productsPerSize + j
  }

  /**
   * Emits `productsPerSize` products for each size of DefaultSizes, size by
   * size in that order, naming the product at position i "Product i+1".
   */
  method GenProducts(productsPerSize: nat) returns (products: seq<Product>)
    ensures |products| == |DefaultSizes| * productsPerSize
    ensures forall i :: 0 <= i < |products| ==> products[i].product == ProductName(i + 1)
    ensures forall i :: 0 <= i < |products| ==> products[i].size in DefaultSizes
    ensures forall s, j :: 0 <= s < |DefaultSizes| && 0 <= j < productsPerSize ==>
      ProductPos(s, j, productsPerSize) < |products| &&
      products[ProductPos(s, j, productsPerSize)].size == DefaultSizes[s]
    ensures NoDup(products) && UniqueProductNames(products)
  {
    products := [];
    for s := 0 to |DefaultSizes|
      invariant |products| == s * productsPerSize
      invariant forall i :: 0 <= i < |products| ==> products[i].product == ProductName(i + 1)
      invariant forall i :: 0 <= i < |products| ==> products[i].size in DefaultSizes
      invariant forall r, j :: 0 <= r < s && 0 <= j < productsPerSize ==>
        ProductPos(r, j, productsPerSize) < |products| &&
        products[ProductPos(r, j, productsPerSize)].size == DefaultSizes[r]
    {
      var size := DefaultSizes[s];
      for j := 0 to productsPerSize
        invariant |products| == s * productsPerSize + j
        invariant forall i :: 0 <= i < |products| ==> products[i].product == ProductName(i + 1)
        invariant forall i :: 0 <= i < |products| ==> products[i].size in DefaultSizes
        invariant forall r, i :: 0 <= r < s && 0 <= i < productsPerSize ==>
          ProductPos(r, i, productsPerSize) < |products| &&
          products[ProductPos(r, i, productsPerSize)].size == DefaultSizes[r]
        invariant forall i :: 0 <= i < j ==> products[ProductPos(s, i, productsPerSize)].size == size
      {
        products := products + [Product(size, ProductName(|products| + 1))];
      }
      assert (s + 1) * productsPerSize == s * productsPerSize + productsPerSize;
    }
  }
}
