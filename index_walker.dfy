/** `_allIndices(into:in:)`: every position of a collection from a lower bound
    up to an upper bound, collected by repeated `successor(of:)`. */
module IndexWalker {
  import opened MutableCollection
  import opened Reference

  /** Walks from `bounds.lowerBound` by `successor(of:)` until it meets
      `bounds.upperBound`. The walk only ends when the upper bound is reachable
      from the lower one, so both must be positions of `c` in order. The
      positions come back in order, one per element of the range, and reading
      them through `c` yields that range's elements. */
  method AllIndices(c: View, bounds: Range) returns (result: seq<int>)
    requires c.Valid()
    requires c.startIndex <= bounds.lowerBound <= bounds.upperBound <= c.endIndex
    ensures |result| == bounds.upperBound - bounds.lowerBound
    ensures forall k :: 0 <= k < |result| ==> result[k] == bounds.lowerBound + k
    ensures forall p :: p in result <==> bounds.Contains(p)
    ensures c.ReadAll(result)
            == AllReturn(c.Elements()[bounds.lowerBound - c.startIndex..bounds.upperBound - c.startIndex])
  {
    result := [];
    var i := bounds.lowerBound;
    while i != bounds.upperBound
      invariant bounds.lowerBound <= i <= bounds.upperBound
      invariant |result| == i - bounds.lowerBound
      invariant forall k :: 0 <= k < |result| ==> result[k] == bounds.lowerBound + k
      decreases bounds.upperBound - i
    {
      result := result + [i];
      i := c.Successor(i);
    }
    assert forall p :: bounds.Contains(p) ==> result[p - bounds.lowerBound] == p;
  }
}
