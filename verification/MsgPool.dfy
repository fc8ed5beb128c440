/** The pool that holds protocol messages until their round comes. */
module MsgPools {
  import opened ViewSeqs
  import opened PriorityQueues
  import opened Chain

  type NodeId = int
  type Digest = nat

  datatype Preprepare = Preprepare(at: ViewSeq, digest: Digest, block: Block, node: NodeId)

  /** A prepare or a commit message. */
  datatype Vote = Vote(at: ViewSeq, digest: Digest, node: NodeId)

  function PreprepareKey(): Preprepare -> ViewSeq { (m: Preprepare) => m.at }
  function VoteKey(): Vote -> ViewSeq { (m: Vote) => m.at }

  /** Of all messages, read are exactly those up to end, in nondecreasing order, and rest are exactly the others. */
  ghost predicate IsRead<T>(all: multiset<T>, read: seq<T>, rest: multiset<T>, key: T -> ViewSeq, end: ViewSeq) {
    && all == multiset(read) + rest
    && (forall x :: x in read ==> AtMost(key(x), end))
    && (forall x :: x in rest ==> Below(end, key(x)))
    && (forall i, j :: 0 <= i < j < |read| ==> AtMost(key(read[i]), key(read[j])))
  }

  lemma ReadMembers<T>(all: multiset<T>, read: seq<T>, rest: multiset<T>, key: T -> ViewSeq, end: ViewSeq)
    requires IsRead(all, read, rest, key, end)
    ensures forall x :: x in read <==> x in all && AtMost(key(x), end)
    ensures forall x :: x in rest <==> x in all && Below(end, key(x))
  {
    forall x ensures x in read <==> x in all && AtMost(key(x), end) {
      assert x in read <==> x in multiset(read);
    }
    forall x ensures x in rest <==> x in all && Below(end, key(x)) {
      assert x in read <==> x in multiset(read);
    }
  }

  /** What is popped next is no smaller than anything read before. */
  ghost predicate ReadSoFar<T>(all: multiset<T>, read: seq<T>, rest: multiset<T>, key: T -> ViewSeq, end: ViewSeq) {
    && all == multiset(read) + rest
    && (forall x :: x in read ==> AtMost(key(x), end))
    && (forall i, j :: 0 <= i < j < |read| ==> AtMost(key(read[i]), key(read[j])))
    && (forall x, y :: x in read && y in rest ==> AtMost(key(x), key(y)))
  }

  lemma ReadOneMore<T>(all: multiset<T>, read: seq<T>, rest: multiset<T>, top: T, rest': multiset<T>, key: T -> ViewSeq, end: ViewSeq)
    requires ReadSoFar(all, read, rest, key, end) && rest == rest' + multiset{top}
    requires forall x :: x in rest ==> AtMost(key(top), key(x))
    requires AtMost(key(top), end)
    ensures ReadSoFar(all, read + [top], rest', key, end)
  {
    assert top in rest;
    forall x | x in read + [top] ensures x in read || x == top {
    }
    forall i, j | 0 <= i < j < |read + [top]| ensures AtMost(key((read + [top])[i]), key((read + [top])[j])) {
      if j == |read| { assert read[i] in read; }
    }
    assert multiset(read + [top]) == multiset(read) + multiset{top};
  }

  /** The read loop: pop, and put back the first message that is still in the future. */
  method ReadUpTo<T(==)>(pq: PriorityQueue<T>, end: ViewSeq) returns (ret: seq<T>)
    requires pq.Valid()
    modifies pq
    ensures pq.Valid() && IsRead(multiset(old(pq.items)), ret, multiset(pq.items), pq.key, end)
  {
    ret := [];
    ghost var all := multiset(pq.items);
    while |pq.items| > 0
      invariant pq.Valid() && ReadSoFar(all, ret, multiset(pq.items), pq.key, end)
      decreases |pq.items|
    {
      ghost var before := pq.items;
      var top := pq.PopItem();
      if end.Compare(pq.key(top)) == -1 {
        pq.PushItem(top);
        FutureStays(before, pq.items, top, pq.key, end);
        return;
      }
      ReadOneMore(all, ret, multiset(before), top, multiset(pq.items), pq.key, end);
      ret := ret + [top];
    }
  }

  lemma FutureStays<T>(before: seq<T>, after: seq<T>, top: T, key: T -> ViewSeq, end: ViewSeq)
    requires multiset(before) == multiset(after)
    requires forall x :: x in before ==> AtMost(key(top), key(x))
    requires Below(end, key(top))
    ensures forall x :: x in multiset(after) ==> Below(end, key(x))
  {
    forall x | x in multiset(after) ensures Below(end, key(x)) {
      assert x in before;
    }
  }

  class MsgPool {
    const preprepares: PriorityQueue<Preprepare>
    const prepares: PriorityQueue<Vote>
    const commits: PriorityQueue<Vote>

    constructor ()
      ensures Valid() && fresh(preprepares) && fresh(prepares) && fresh(commits)
      ensures preprepares.items == [] && prepares.items == [] && commits.items == []
    {
      preprepares := new PriorityQueue(PreprepareKey());
      prepares := new PriorityQueue(VoteKey());
      commits := new PriorityQueue(VoteKey());
    }

    ghost predicate Valid()
      reads this, preprepares, prepares, commits
    {
      && preprepares.Valid() && prepares.Valid() && commits.Valid() && prepares != commits
      && preprepares.key == PreprepareKey() && prepares.key == VoteKey() && commits.key == VoteKey()
    }

    method ReadPreprepareMsg(end: ViewSeq) returns (ret: seq<Preprepare>)
      requires Valid()
      modifies preprepares
      ensures Valid() && IsRead(multiset(old(preprepares.items)), ret, multiset(preprepares.items), PreprepareKey(), end)
    {
      ret := ReadUpTo(preprepares, end);
    }

    method ReadPrepareMsg(end: ViewSeq) returns (ret: seq<Vote>)
      requires Valid()
      modifies prepares
      ensures Valid() && IsRead(multiset(old(prepares.items)), ret, multiset(prepares.items), VoteKey(), end)
    {
      ret := ReadUpTo(prepares, end);
    }

    method ReadCommitMsg(end: ViewSeq) returns (ret: seq<Vote>)
      requires Valid()
      modifies commits
      ensures Valid() && IsRead(multiset(old(commits.items)), ret, multiset(commits.items), VoteKey(), end)
    {
      ret := ReadUpTo(commits, end);
    }

    method PushPreprepareMsg(m: Preprepare)
      requires Valid()
      modifies preprepares
      ensures Valid() && multiset(preprepares.items) == multiset(old(preprepares.items)) + multiset{m}
    {
      preprepares.PushItem(m);
    }

    method PushPrepareMsg(m: Vote)
      requires Valid()
      modifies prepares
      ensures Valid() && multiset(prepares.items) == multiset(old(prepares.items)) + multiset{m}
    {
      prepares.PushItem(m);
    }

    method PushCommitMsg(m: Vote)
      requires Valid()
      modifies commits
      ensures Valid() && multiset(commits.items) == multiset(old(commits.items)) + multiset{m}
    {
      commits.PushItem(m);
    }
  }
}
