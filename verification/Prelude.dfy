/** Sums over ranges and sequences, used by the conservation and counting arguments. */
module Prelude {

  datatype Option<+T> = None | Some(value: T)

  lemma SomeMember<T>(s: set<T>) returns (x: T)
    requires s != {}
    ensures x in s
  {
    x :| x in s;
  }

  /** f(0) + f(1) + ... + f(n-1). */
  ghost function Sum(f: nat -> int, n: nat): int {
    if n == 0 then 0 else Sum(f, n - 1) + f(n - 1)
  }

  lemma {:induction false} SumAgree(f: nat -> int, g: nat -> int, n: nat)
    requires forall i :: 0 <= i < n ==> f(i) == g(i)
    ensures Sum(f, n) == Sum(g, n)
  {
    if n > 0 { SumAgree(f, g, n - 1); }
  }

  /** Functions that agree except at k have sums that differ by the difference at k. */
  lemma {:induction false} SumChangeAt(f: nat -> int, g: nat -> int, n: nat, k: nat)
    requires k < n
    requires forall i :: 0 <= i < n && i != k ==> f(i) == g(i)
    ensures Sum(g, n) == Sum(f, n) - f(k) + g(k)
  {
    if k == n - 1 {
      SumAgree(f, g, n - 1);
    } else {
      SumChangeAt(f, g, n - 1, k);
    }
  }

  lemma {:induction false} SumConst(f: nat -> int, c: int, n: nat)
    requires forall i :: 0 <= i < n ==> f(i) == c
    ensures Sum(f, n) == c * n
  {
    if n > 0 { SumConst(f, c, n - 1); }
  }

  lemma {:induction false} SumPlus(f: nat -> int, g: nat -> int, h: nat -> int, n: nat)
    requires forall i :: 0 <= i < n ==> h(i) == f(i) + g(i)
    ensures Sum(h, n) == Sum(f, n) + Sum(g, n)
  {
    if n > 0 { SumPlus(f, g, h, n - 1); }
  }

  /** A sum of non-negative terms bounds each of its terms. */
  lemma {:induction false} SumBounds(f: nat -> int, n: nat, k: nat)
    requires forall i :: 0 <= i < n ==> f(i) >= 0
    ensures Sum(f, n) >= 0
    ensures k < n ==> f(k) <= Sum(f, n)
  {
    if n > 0 { SumBounds(f, n - 1, k); }
  }

  /** The sum of f over the elements of s. */
  ghost function SeqSum<T>(s: seq<T>, f: T -> int): int {
    if |s| == 0 then 0 else SeqSum(s[..|s| - 1], f) + f(s[|s| - 1])
  }

  lemma {:induction false} SeqSumAppend<T>(a: seq<T>, b: seq<T>, f: T -> int)
    ensures SeqSum(a + b, f) == SeqSum(a, f) + SeqSum(b, f)
  {
    if b == [] {
      assert a + b == a;
    } else {
      var b' := b[..|b| - 1];
      assert (a + b)[..|a + b| - 1] == a + b';
      SeqSumAppend(a, b', f);
    }
  }

  lemma SeqSumSnoc<T>(a: seq<T>, x: T, f: T -> int)
    ensures SeqSum(a + [x], f) == SeqSum(a, f) + f(x)
  {
    assert (a + [x])[..|a|] == a;
  }

  lemma SeqSumOne<T>(x: T, f: T -> int)
    ensures SeqSum([x], f) == f(x)
  {
    assert [] + [x] == [x];
    SeqSumSnoc([], x, f);
  }

  lemma SeqSumSplit<T>(s: seq<T>, i: nat, f: T -> int)
    requires i < |s|
    ensures SeqSum(s, f) == SeqSum(s[..i], f) + f(s[i]) + SeqSum(s[i + 1..], f)
  {
    assert s == (s[..i] + [s[i]]) + s[i + 1..];
    SeqSumAppend(s[..i] + [s[i]], s[i + 1..], f);
    SeqSumSnoc(s[..i], s[i], f);
  }

  lemma SeqSumUpdate<T>(s: seq<T>, i: nat, v: T, f: T -> int)
    requires i < |s|
    ensures SeqSum(s[i := v], f) == SeqSum(s, f) - f(s[i]) + f(v)
  {
    SeqSumSplit(s, i, f);
    SeqSumSplit(s[i := v], i, f);
    assert s[i := v][..i] == s[..i] && s[i := v][i + 1..] == s[i + 1..];
  }

  /** The sequence without its i-th element: a message taken out of a bag. */
  function Without<T>(s: seq<T>, i: nat): (r: seq<T>)
    requires i < |s|
    ensures |r| == |s| - 1
    ensures forall x :: x in r ==> x in s
  {
    s[..i] + s[i + 1..]
  }

  lemma SeqSumWithout<T>(s: seq<T>, i: nat, f: T -> int)
    requires i < |s|
    ensures SeqSum(Without(s, i), f) == SeqSum(s, f) - f(s[i])
  {
    SeqSumSplit(s, i, f);
    SeqSumAppend(s[..i], s[i + 1..], f);
  }

  lemma {:induction false} SeqSumNonNegative<T>(s: seq<T>, f: T -> int)
    requires forall x :: x in s ==> f(x) >= 0
    ensures SeqSum(s, f) >= 0
  {
    if s != [] {
      SeqSumNonNegative(s[..|s| - 1], f);
      assert s[|s| - 1] in s;
    }
  }

  /** The sum of f over the elements of a set. */
  ghost function SetSum<T(!new)>(s: set<T>, f: T -> int): int {
    if s == {} then 0 else
    var x :| x in s;
    f(x) + SetSum(s - {x}, f)
  }

  lemma {:induction false} SetSumWithout<T(!new)>(s: set<T>, f: T -> int, x: T)
    requires x in s
    ensures SetSum(s, f) == f(x) + SetSum(s - {x}, f)
    decreases s
  {
    var y :| y in s && SetSum(s, f) == f(y) + SetSum(s - {y}, f);
    if y != x {
      SetSumWithout(s - {y}, f, x);
      SetSumWithout(s - {x}, f, y);
      assert s - {y} - {x} == s - {x} - {y};
    }
  }

  lemma {:induction false} SetSumAgree<T(!new)>(s: set<T>, f: T -> int, g: T -> int)
    requires forall x :: x in s ==> f(x) == g(x)
    ensures SetSum(s, f) == SetSum(s, g)
    decreases s
  {
    if s != {} {
      var x := SomeMember(s);
      SetSumWithout(s, f, x);
      SetSumWithout(s, g, x);
      SetSumAgree(s - {x}, f, g);
    }
  }

  lemma SetSumChangeAt<T(!new)>(s: set<T>, f: T -> int, g: T -> int, x: T)
    requires x in s && forall y :: y in s && y != x ==> f(y) == g(y)
    ensures SetSum(s, g) == SetSum(s, f) - f(x) + g(x)
  {
    SetSumWithout(s, f, x);
    SetSumWithout(s, g, x);
    SetSumAgree(s - {x}, f, g);
  }

  lemma {:induction false} SetSumNonNegative<T(!new)>(s: set<T>, f: T -> int)
    requires forall x :: x in s ==> f(x) >= 0
    ensures SetSum(s, f) >= 0
    decreases s
  {
    if s != {} {
      var x := SomeMember(s);
      SetSumWithout(s, f, x);
      SetSumNonNegative(s - {x}, f);
    }
  }

  lemma {:induction false} SetSumPlus<T(!new)>(s: set<T>, f: T -> int, g: T -> int, h: T -> int)
    requires forall x :: x in s ==> h(x) == f(x) + g(x)
    ensures SetSum(s, h) == SetSum(s, f) + SetSum(s, g)
    decreases s
  {
    if s != {} {
      var x := SomeMember(s);
      SetSumWithout(s, f, x);
      SetSumWithout(s, g, x);
      SetSumWithout(s, h, x);
      SetSumPlus(s - {x}, f, g, h);
    }
  }

  /** f applied to every element. */
  function Mapped<A, B>(s: seq<A>, f: A -> B): (r: seq<B>)
    ensures |r| == |s| && forall i :: 0 <= i < |s| ==> r[i] == f(s[i])
  {
    seq(|s|, i requires 0 <= i < |s| => f(s[i]))
  }

  lemma MappedSnoc<A, B>(s: seq<A>, x: A, f: A -> B)
    ensures Mapped(s + [x], f) == Mapped(s, f) + [f(x)]
  {
  }

  lemma MappedSlice<A, B>(s: seq<A>, f: A -> B, i: nat, j: nat)
    requires i <= j <= |s|
    ensures Mapped(s, f)[i..j] == Mapped(s[i..j], f)
  {
  }

  lemma MappedJoin<A, B>(s: seq<A>, f: A -> B, i: nat, j: nat, k: nat)
    requires i <= j <= k <= |s|
    ensures Mapped(s[i..j], f) + Mapped(s[j..k], f) == Mapped(s[i..k], f)
  {
  }
}
