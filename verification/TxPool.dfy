/** The FIFO transaction pool with its two packing modes. */
module TxPool {
  import opened Transactions

  // --------------------------------------------------------------- number mode

  function Min(a: int, b: int): int { if a < b then a else b }

  // ----------------------------------------------------------------- byte mode

  function SizeOf(sizes: Tx -> nat, txs: seq<Tx>): nat {
    if txs == [] then 0 else SizeOf(sizes, txs[..|txs| - 1]) + sizes(txs[|txs| - 1])
  }

  class TxPool {
    var queue: seq<Tx>

    constructor ()
      ensures queue == []
    {
      queue := [];
    }

    method AddTxs(txs: seq<Tx>)
      modifies this
      ensures queue == old(queue) + txs
    {
      queue := queue + txs;
    }

    /** Number mode: the longest prefix of at most limit transactions. */
    method PackTxs(limit: nat) returns (packed: seq<Tx>)
      modifies this
      ensures packed + queue == old(queue)
      ensures |packed| == Min(limit, |old(queue)|)
    {
      var length := Min(limit, |queue|);
      packed := queue[..length];
      queue := queue[length..];
    }

    /**
     * Byte mode. The loop stops at the first transaction that is SMALLER than what is left of the
     * limit, so the outcome is all or nothing: the whole queue when the first transaction is at
     * least as large as the limit, and nothing otherwise.
     */
    method PackTxsByBytes(sizes: Tx -> nat, limit: nat) returns (packed: seq<Tx>)
      modifies this
      ensures packed + queue == old(queue)
      ensures packed == if old(queue) != [] && sizes(old(queue)[0]) >= limit then old(queue) else []
    {
      var n: int := limit;
      var endIdx := 0;
      for i := 0 to |queue|
        invariant endIdx == i
        invariant i == 0 ==> n == limit
        invariant i > 0 ==> n <= 0 && sizes(queue[0]) >= limit
        invariant queue == old(queue)
      {
        if sizes(queue[i]) < n { break; }
        n := n - sizes(queue[i]);
        endIdx := i + 1;
      }
      packed := queue[..endIdx];
      queue := queue[endIdx..];
    }
  }
}
