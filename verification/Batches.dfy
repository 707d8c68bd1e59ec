/** The iterator that hands out consecutive index ranges of bounded size. */
module Batches {
  import opened Redis

  datatype Range = Range(from: nat, to: nat)

  /** Walks 1..n in ranges of at most `batchSize` indices, both ends included. */
  class BatchCursor {
    const n: nat
    const batchSize: nat
    var i: nat

    constructor (n: nat, batchSize: nat)
      requires batchSize >= 1
      ensures this.n == n && this.batchSize == batchSize && i == 0
    {
      this.n := n;
      this.batchSize := batchSize;
      i := 0;
    }

    /** Number of indices handed out before call number `i`. */
    function Consumed(): (c: nat)
      reads this
      ensures c <= n
    {
      Min(i * batchSize, n)
    }

    /** The next range starts right after the indices handed out so far, is never empty, and
        None is answered only once all of 1..n has been handed out. */
    method Next() returns (r: Option<Range>)
      requires batchSize >= 1
      modifies this
      ensures i == old(i) + 1
      ensures r.None? <==> old(Consumed()) == n
      ensures r.None? ==> Consumed() == n
      ensures r.Some? ==>
                && r.value.from == old(Consumed()) + 1
                && r.value.to == Consumed()
                && r.value.from <= r.value.to < r.value.from + batchSize
    {
      var from := i * batchSize + 1;
      i := i + 1;
      if from <= n {
        var to := Min(from + batchSize - 1, n);
        r := Some(Range(from, to));
      } else {
        r := None;
      }
    }
  }
}
