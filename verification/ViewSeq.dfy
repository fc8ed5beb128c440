/** Views and sequence numbers of PBFT, in lexicographic order. */
module ViewSeqs {

  datatype ViewSeq = ViewSeq(view: int, seq_: int) {
    function Compare(other: ViewSeq): int {
      if view != other.view then (if view < other.view then -1 else 1)
      else if seq_ != other.seq_ then (if seq_ < other.seq_ then -1 else 1)
      else 0
    }
  }

  predicate AtMost(a: ViewSeq, b: ViewSeq) { a.Compare(b) != 1 }
  predicate Below(a: ViewSeq, b: ViewSeq) { a.Compare(b) == -1 }

  /** Compare is a total order: zero means equal, the sign is antisymmetric, and it is transitive. */
  lemma CompareIsTotalOrder(a: ViewSeq, b: ViewSeq, c: ViewSeq)
    ensures a.Compare(b) == 0 <==> a == b
    ensures a.Compare(b) == -b.Compare(a)
    ensures AtMost(a, b) && AtMost(b, c) ==> AtMost(a, c)
    ensures Below(a, b) <==> !AtMost(b, a)
  {
  }
}
