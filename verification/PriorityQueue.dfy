/** The binary heap that orders protocol messages by view and sequence number. */
module PriorityQueues {
  import opened ViewSeqs

  ghost function Parent(c: nat): nat
    requires c > 0
  {
    (c - 1) / 2
  }

  /** No element is smaller than its parent. */
  ghost predicate IsHeap<T>(items: seq<T>, key: T -> ViewSeq) {
    forall c :: 0 < c < |items| ==> InOrder(items, key, c)
  }

  ghost predicate InOrder<T>(items: seq<T>, key: T -> ViewSeq, c: nat)
    requires 0 < c < |items|
  {
    AtMost(key(items[Parent(c)]), key(items[c]))
  }

  /** A heap up to j, which may be smaller than its parent; its children are in order with its parent. */
  ghost predicate HeapButUp<T>(items: seq<T>, key: T -> ViewSeq, j: nat) {
    && j < |items|
    && (forall c :: 0 < c < |items| && c != j ==> InOrder(items, key, c))
    && (forall c :: 0 < c < |items| && Parent(c) == j && j > 0 ==> AtMost(key(items[Parent(j)]), key(items[c])))
  }

  /** A heap down to i, which may be larger than its children. */
  ghost predicate HeapButDown<T>(items: seq<T>, key: T -> ViewSeq, i: nat) {
    && i < |items|
    && (forall c :: 0 < c < |items| && Parent(c) != i ==> InOrder(items, key, c))
    && (forall c :: 0 < c < |items| && Parent(c) == i && i > 0 ==> AtMost(key(items[Parent(i)]), key(items[c])))
  }

  function Swapped<T>(items: seq<T>, i: nat, j: nat): seq<T>
    requires i < |items| && j < |items|
  {
    items[i := items[j]][j := items[i]]
  }

  lemma SwapKeepsMultiset<T>(items: seq<T>, i: nat, j: nat)
    requires i < |items| && j < |items|
    ensures multiset(Swapped(items, i, j)) == multiset(items)
  {
  }

  lemma UpStep<T>(items: seq<T>, key: T -> ViewSeq, j: nat)
    requires HeapButUp(items, key, j) && j > 0 && Below(key(items[j]), key(items[Parent(j)]))
    ensures HeapButUp(Swapped(items, Parent(j), j), key, Parent(j))
  {
    var i := Parent(j);
    var s := Swapped(items, i, j);
    forall c | 0 < c < |s| && c != i ensures InOrder(s, key, c) {
      if c != j { assert InOrder(items, key, c); }
    }
    forall c | 0 < c < |s| && Parent(c) == i && i > 0 ensures AtMost(key(s[Parent(i)]), key(s[c])) {
      assert InOrder(items, key, i);
      if c != j { assert InOrder(items, key, c); }
    }
  }

  lemma DownStep<T>(items: seq<T>, key: T -> ViewSeq, i: nat, j: nat)
    requires HeapButDown(items, key, i) && 0 < j < |items| && Parent(j) == i
    requires forall c :: 0 < c < |items| && Parent(c) == i ==> AtMost(key(items[j]), key(items[c]))
    requires Below(key(items[j]), key(items[i]))
    ensures HeapButDown(Swapped(items, i, j), key, j)
  {
    var s := Swapped(items, i, j);
    forall c | 0 < c < |s| && Parent(c) != j ensures InOrder(s, key, c) {
      if Parent(c) != i && c != i { assert InOrder(items, key, c); }
    }
    forall c | 0 < c < |s| && Parent(c) == j ensures AtMost(key(s[Parent(j)]), key(s[c])) {
      assert InOrder(items, key, c);
    }
  }

  /** The root of a heap is a least element. */
  lemma {:induction false} RootIsLeast<T>(items: seq<T>, key: T -> ViewSeq, c: nat)
    requires IsHeap(items, key) && c < |items|
    ensures AtMost(key(items[0]), key(items[c]))
    decreases c
  {
    if c > 0 {
      RootIsLeast(items, key, Parent(c));
      assert InOrder(items, key, c);
    }
  }

  lemma RootBelowAll<T>(items: seq<T>, key: T -> ViewSeq)
    requires IsHeap(items, key) && |items| > 0
    ensures forall x :: x in items ==> AtMost(key(items[0]), key(x))
  {
    forall x | x in items ensures AtMost(key(items[0]), key(x)) {
      var c :| 0 <= c < |items| && items[c] == x;
      RootIsLeast(items, key, c);
    }
  }

  /** Moving the last element to the root and dropping the root leaves a heap below the root. */
  lemma RootReplaced<T>(items: seq<T>, key: T -> ViewSeq)
    requires IsHeap(items, key) && |items| > 1
    ensures HeapButDown(Swapped(items, 0, |items| - 1)[..|items| - 1], key, 0)
    ensures multiset(items) == multiset(Swapped(items, 0, |items| - 1)[..|items| - 1]) + multiset{items[0]}
  {
    var n := |items| - 1;
    var s := Swapped(items, 0, n);
    SwapKeepsMultiset(items, 0, n);
    assert s == s[..n] + [items[0]];
    forall c | 0 < c < n && Parent(c) != 0 ensures InOrder(s[..n], key, c) {
      assert InOrder(items, key, c);
    }
  }

  class PriorityQueue<T(==)> {
    var items: seq<T>
    const key: T -> ViewSeq

    constructor (key: T -> ViewSeq)
      ensures Valid() && items == [] && this.key == key
    {
      this.key := key;
      items := [];
    }

    ghost predicate Valid()
      reads this
    {
      IsHeap(items, key)
    }

    predicate Less(i: nat, j: nat)
      requires i < |items| && j < |items|
      reads this
    {
      key(items[i]).Compare(key(items[j])) == -1
    }

    method Swap(i: nat, j: nat)
      requires i < |items| && j < |items|
      modifies this
      ensures items == Swapped(old(items), i, j)
    {
      items := items[i := items[j]][j := items[i]];
    }

    method Up(j0: nat)
      requires HeapButUp(items, key, j0)
      modifies this
      ensures Valid() && multiset(items) == multiset(old(items))
    {
      var j := j0;
      while true
        invariant HeapButUp(items, key, j)
        invariant multiset(items) == multiset(old(items))
        decreases j
      {
        var i := if j == 0 then 0 else (j - 1) / 2;
        if i == j || !Less(j, i) { break; }
        UpStep(items, key, j);
        SwapKeepsMultiset(items, i, j);
        Swap(i, j);
        j := i;
      }
      forall c | 0 < c < |items| ensures InOrder(items, key, c) {
      }
    }

    /** The lesser child of i, if i has any. */
    method LesserChild(i: nat) returns (j: nat)
      ensures j >= |items| ==> forall c :: 0 < c < |items| ==> Parent(c) != i
      ensures j < |items| ==> 0 < j && Parent(j) == i && i < j
      ensures j < |items| ==> forall c :: 0 < c < |items| && Parent(c) == i ==> AtMost(key(items[j]), key(items[c]))
    {
      var n, j1 := |items|, 2 * i + 1;
      forall c | 0 < c < n && Parent(c) == i ensures c == j1 || c == j1 + 1 {
      }
      if j1 >= n { return j1; }
      j := j1;
      if j1 + 1 < n && Less(j1 + 1, j1) { j := j1 + 1; }
    }

    method Down()
      requires HeapButDown(items, key, 0)
      modifies this
      ensures Valid() && multiset(items) == multiset(old(items))
    {
      var i, n := 0, |items|;
      while true
        invariant |items| == n && HeapButDown(items, key, i)
        invariant multiset(items) == multiset(old(items))
        decreases n - i
      {
        var j := LesserChild(i);
        if j >= n || !Less(j, i) { break; }
        DownStep(items, key, i, j);
        SwapKeepsMultiset(items, i, j);
        hide HeapButDown;
        Swap(i, j);
        i := j;
      }
      forall c | 0 < c < |items| ensures InOrder(items, key, c) {
      }
    }

    method PushItem(x: T)
      requires Valid()
      modifies this
      ensures Valid() && multiset(items) == multiset(old(items)) + multiset{x}
    {
      items := items + [x];
      forall c | 0 < c < |items| && c != |items| - 1 ensures InOrder(items, key, c) {
        assert InOrder(old(items), key, c);
      }
      Up(|items| - 1);
    }

    /** The popped element is a least one, and nothing else leaves. */
    method PopItem() returns (top: T)
      requires Valid() && |items| > 0
      modifies this
      ensures Valid() && multiset(old(items)) == multiset(items) + multiset{top}
      ensures |items| == |old(items)| - 1
      ensures forall x :: x in old(items) ==> AtMost(key(top), key(x))
    {
      ghost var before := items;
      RootBelowAll(items, key);
      var n := |items| - 1;
      top := items[0];
      if n == 0 {
        items := [];
        assert before == [top];
        return;
      }
      RootReplaced(items, key);
      hide IsHeap, HeapButDown, AtMost;
      Swap(0, n);
      items := items[..n];
      ghost var rest := items;
      Down();
      SameSize(items, rest);
    }
  }

  lemma SameSize<T>(a: seq<T>, b: seq<T>)
    requires multiset(a) == multiset(b)
    ensures |a| == |b|
  {
    assert |multiset(a)| == |a| && |multiset(b)| == |b|;
  }
}
