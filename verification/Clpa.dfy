/** Constrained label propagation: shard weights, vertex counts and the moves that change them. */
module Clpa {
  import opened Prelude
  import opened Accounts
  import opened Graph

  const UPDATE_THRESHOLD: nat := 50

  type Placement = map<Acct, Shard>

  // ----------------------------------------------------------- the reference definition

  predicate Touches(part: Placement, n: nat, k: Shard, e: Edge)
    requires n > 0
  {
    LocOf(part, e.u, n) == k || LocOf(part, e.w, n) == k
  }

  predicate IsCut(part: Placement, n: nat, e: Edge)
    requires n > 0
  {
    LocOf(part, e.u, n) != LocOf(part, e.w, n)
  }

  ghost function TouchCount(part: Placement, n: nat, k: Shard): Edge -> int
    requires n > 0
  {
    (e: Edge) => if Touches(part, n, k, e) then 1 else 0
  }

  ghost function CutCount(part: Placement, n: nat): Edge -> int
    requires n > 0
  {
    (e: Edge) => if IsCut(part, n, e) then 1 else 0
  }

  /** The number of edges that touch shard k. */
  ghost function Weight(edges: seq<Edge>, part: Placement, n: nat, k: Shard): int
    requires n > 0
  {
    SeqSum(edges, TouchCount(part, n, k))
  }

  ghost function CutEdges(edges: seq<Edge>, part: Placement, n: nat): int
    requires n > 0
  {
    SeqSum(edges, CutCount(part, n))
  }

  ghost function WeightIn(edges: seq<Edge>, part: Placement, n: nat): nat -> int
    requires n > 0
  {
    (k: nat) => Weight(edges, part, n, k)
  }

  ghost function TouchedBy(part: Placement, n: nat, e: Edge): nat -> int
    requires n > 0
  {
    (k: nat) => if Touches(part, n, k, e) then 1 else 0
  }

  lemma ShardsTouched(part: Placement, n: nat, e: Edge)
    requires n > 0 && LocOf(part, e.u, n) < n && LocOf(part, e.w, n) < n
    ensures Sum(TouchedBy(part, n, e), n) == if IsCut(part, n, e) then 2 else 1
  {
    var u, w := LocOf(part, e.u, n), LocOf(part, e.w, n);
    var f := (k: nat) => 0;
    var g := (k: nat) => if k == u then 1 else 0;
    var h := TouchedBy(part, n, e);
    SumConst(f, 0, n);
    SumChangeAt(f, g, n, u);
    if u == w { SumAgree(g, h, n); } else { SumChangeAt(g, h, n, w); }
  }

  /** The weights of all shards add up to the edges plus the cut edges. */
  lemma {:induction false} WeightsSumUp(edges: seq<Edge>, part: Placement, n: nat)
    requires n > 0 && forall a :: a in part ==> part[a] < n
    ensures Sum(WeightIn(edges, part, n), n) == |edges| + CutEdges(edges, part, n)
  {
    if edges == [] {
      SumConst(WeightIn(edges, part, n), 0, n);
    } else {
      var most, e := edges[..|edges| - 1], edges[|edges| - 1];
      WeightsSumUp(most, part, n);
      ShardsTouched(part, n, e);
      SumPlus(WeightIn(most, part, n), TouchedBy(part, n, e), WeightIn(edges, part, n), n);
    }
  }

  // ------------------------------------------------------------ tallying over the vertices

  /** Seen from v, the half-edge to u leaves shard k, or stays inside it. */
  predicate Leaves(part: Placement, n: nat, k: Shard, v: Acct, u: Acct)
    requires n > 0
  {
    LocOf(part, v, n) == k && LocOf(part, u, n) != k
  }

  predicate Inside(part: Placement, n: nat, k: Shard, v: Acct, u: Acct)
    requires n > 0
  {
    LocOf(part, v, n) == k && LocOf(part, u, n) == k
  }

  ghost function CrossPair(part: Placement, n: nat, k: Shard): (Acct, Acct) -> int
    requires n > 0
  {
    (v: Acct, u: Acct) => if Leaves(part, n, k, v, u) then 1 else 0
  }

  ghost function InterPair(part: Placement, n: nat, k: Shard): (Acct, Acct) -> int
    requires n > 0
  {
    (v: Acct, u: Acct) => if Inside(part, n, k, v, u) then 1 else 0
  }

  ghost function From(v: Acct, p: (Acct, Acct) -> int): Acct -> int { (u: Acct) => p(v, u) }

  /** What an edge contributes once the vertices in done have been tallied. */
  ghost function Share(done: set<Acct>, p: (Acct, Acct) -> int): Edge -> int {
    (e: Edge) => (if e.u in done then p(e.u, e.w) else 0) + (if e.w in done then p(e.w, e.u) else 0)
  }

  lemma {:induction false} ShareGrows(edges: seq<Edge>, done: set<Acct>, v: Acct, p: (Acct, Acct) -> int)
    requires v !in done
    ensures SeqSum(edges, Share(done + {v}, p)) == SeqSum(edges, Share(done, p)) + SeqSum(Neighbours(edges, v), From(v, p))
  {
    NeighboursSum(edges, v, From(v, p));
    ShareGrowsEdge(edges, done, v, p);
  }

  lemma {:induction false} ShareGrowsEdge(edges: seq<Edge>, done: set<Acct>, v: Acct, p: (Acct, Acct) -> int)
    requires v !in done
    ensures SeqSum(edges, Share(done + {v}, p)) == SeqSum(edges, Share(done, p)) + SeqSum(edges, AtEnds(v, From(v, p)))
  {
    if edges != [] { ShareGrowsEdge(edges[..|edges| - 1], done, v, p); }
  }

  /** Tallied over every vertex, the cut and inner half-edges of a shard give the number of edges that touch it. */
  lemma {:induction false} TallyIsWeight(edges: seq<Edge>, done: set<Acct>, part: Placement, n: nat, k: Shard)
    requires n > 0 && forall e :: e in edges ==> e.u in done && e.w in done
    ensures 2 * SeqSum(edges, Share(done, CrossPair(part, n, k))) + SeqSum(edges, Share(done, InterPair(part, n, k)))
            == 2 * Weight(edges, part, n, k)
  {
    if edges != [] {
      TallyIsWeight(edges[..|edges| - 1], done, part, n, k);
      assert edges[|edges| - 1] in edges;
    }
  }

  /** The half-edges of the vertices in done have been counted, shard by shard. */
  ghost predicate Tallied(cross: seq<int>, inter: seq<int>, edges: seq<Edge>, done: set<Acct>, part: Placement, n: nat)
    requires n > 0
  {
    && |cross| == |inter| == n
    && (forall k :: 0 <= k < n ==> cross[k] == SeqSum(edges, Share(done, CrossPair(part, n, k))))
    && (forall k :: 0 <= k < n ==> inter[k] == SeqSum(edges, Share(done, InterPair(part, n, k))))
  }

  /** The counts after the adjacency list of v has been added to them. */
  ghost predicate Added(cross: seq<int>, inter: seq<int>, cross': seq<int>, inter': seq<int>, list: seq<Acct>, v: Acct, part: Placement, n: nat)
    requires n > 0
  {
    && |cross| == |inter| == |cross'| == |inter'| == n
    && (forall k :: 0 <= k < n ==> cross'[k] == cross[k] + SeqSum(list, From(v, CrossPair(part, n, k))))
    && (forall k :: 0 <= k < n ==> inter'[k] == inter[k] + SeqSum(list, From(v, InterPair(part, n, k))))
  }

  lemma NothingAdded(cross: seq<int>, inter: seq<int>, v: Acct, part: Placement, n: nat)
    requires n > 0 && |cross| == |inter| == n
    ensures Added(cross, inter, cross, inter, [], v, part, n)
  {
  }

  lemma AddedOne(cross: seq<int>, inter: seq<int>, c: seq<int>, i: seq<int>, list: seq<Acct>, u: Acct, v: Acct, part: Placement, n: nat)
    requires n > 0 && Added(cross, inter, c, i, list, v, part, n) && LocOf(part, v, n) < n
    ensures var s := LocOf(part, v, n);
            var leaves := s != LocOf(part, u, n);
            Added(cross, inter, if leaves then c[s := c[s] + 1] else c, if leaves then i else i[s := i[s] + 1], list + [u], v, part, n)
  {
    forall k | 0 <= k < n
      ensures SeqSum(list + [u], From(v, CrossPair(part, n, k))) == SeqSum(list, From(v, CrossPair(part, n, k))) + CrossPair(part, n, k)(v, u)
      ensures SeqSum(list + [u], From(v, InterPair(part, n, k))) == SeqSum(list, From(v, InterPair(part, n, k))) + InterPair(part, n, k)(v, u)
    {
      SeqSumSnoc(list, u, From(v, CrossPair(part, n, k)));
      SeqSumSnoc(list, u, From(v, InterPair(part, n, k)));
    }
  }

  lemma TalliedMore(cross: seq<int>, inter: seq<int>, cross': seq<int>, inter': seq<int>, edges: seq<Edge>, done: set<Acct>, v: Acct, part: Placement, n: nat)
    requires n > 0 && v !in done && Tallied(cross, inter, edges, done, part, n)
    requires Added(cross, inter, cross', inter', Neighbours(edges, v), v, part, n)
    ensures Tallied(cross', inter', edges, done + {v}, part, n)
  {
    forall k | 0 <= k < n
      ensures cross'[k] == SeqSum(edges, Share(done + {v}, CrossPair(part, n, k)))
      ensures inter'[k] == SeqSum(edges, Share(done + {v}, InterPair(part, n, k)))
    {
      ShareGrows(edges, done, v, CrossPair(part, n, k));
      ShareGrows(edges, done, v, InterPair(part, n, k));
    }
  }

  lemma TalliedNone(edges: seq<Edge>, part: Placement, n: nat)
    requires n > 0
    ensures Tallied(seq(n, _ => 0), seq(n, _ => 0), edges, {}, part, n)
  {
    forall k | 0 <= k < n
      ensures SeqSum(edges, Share({}, CrossPair(part, n, k))) == 0 && SeqSum(edges, Share({}, InterPair(part, n, k))) == 0
    {
      NothingShared(edges, CrossPair(part, n, k));
      NothingShared(edges, InterPair(part, n, k));
    }
  }

  lemma {:induction false} NothingShared(edges: seq<Edge>, p: (Acct, Acct) -> int)
    ensures SeqSum(edges, Share({}, p)) == 0
  {
    if edges != [] { NothingShared(edges[..|edges| - 1], p); }
  }

  /** The tally over all vertices gives the weight of every shard, and every cut edge twice. */
  lemma TalliedAll(cross: seq<int>, inter: seq<int>, edges: seq<Edge>, all: set<Acct>, part: Placement, n: nat)
    requires n > 0 && (forall a :: a in part ==> part[a] < n)
    requires Tallied(cross, inter, edges, all, part, n)
    requires forall e :: e in edges ==> e.u in all && e.w in all
    ensures forall k :: 0 <= k < n ==> 2 * cross[k] + inter[k] == 2 * Weight(edges, part, n, k)
    ensures Sum(SumOf(cross), n) == 2 * CutEdges(edges, part, n)
  {
    forall k | 0 <= k < n ensures 2 * cross[k] + inter[k] == 2 * Weight(edges, part, n, k) {
      TallyIsWeight(edges, all, part, n, k);
    }
    CrossTallySums(edges, all, part, n);
    SumAgree(SumOf(cross), CrossTally(edges, all, part, n), n);
  }

  ghost function SumOf(s: seq<int>): nat -> int { (k: nat) => if k < |s| then s[k] else 0 }

  ghost function CrossTally(edges: seq<Edge>, done: set<Acct>, part: Placement, n: nat): nat -> int
    requires n > 0
  {
    (k: nat) => SeqSum(edges, Share(done, CrossPair(part, n, k)))
  }

  ghost function CrossBy(part: Placement, n: nat, e: Edge): nat -> int
    requires n > 0
  {
    (k: nat) => (if Leaves(part, n, k, e.u, e.w) then 1 else 0) + (if Leaves(part, n, k, e.w, e.u) then 1 else 0)
  }

  lemma CutHalves(part: Placement, n: nat, e: Edge)
    requires n > 0 && LocOf(part, e.u, n) < n && LocOf(part, e.w, n) < n
    ensures Sum(CrossBy(part, n, e), n) == if IsCut(part, n, e) then 2 else 0
  {
    var u, w := LocOf(part, e.u, n), LocOf(part, e.w, n);
    var f := (k: nat) => 0;
    var g := (k: nat) => if k == u && u != w then 1 else 0;
    SumConst(f, 0, n);
    SumChangeAt(f, g, n, u);
    SumChangeAt(g, CrossBy(part, n, e), n, w);
  }

  /** Every cut edge is tallied twice. */
  lemma {:induction false} CrossTallySums(edges: seq<Edge>, done: set<Acct>, part: Placement, n: nat)
    requires n > 0 && forall a :: a in part ==> part[a] < n
    requires forall e :: e in edges ==> e.u in done && e.w in done
    ensures Sum(CrossTally(edges, done, part, n), n) == 2 * CutEdges(edges, part, n)
  {
    if edges == [] {
      SumConst(CrossTally(edges, done, part, n), 0, n);
    } else {
      var most, e := edges[..|edges| - 1], edges[|edges| - 1];
      assert e in edges;
      CrossTallySums(most, done, part, n);
      CutHalves(part, n, e);
      SumPlus(CrossTally(most, done, part, n), CrossBy(part, n, e), CrossTally(edges, done, part, n), n);
    }
  }

  // -------------------------------------------------------------- the incremental update

  /** The correction of the weight of shard k for neighbour u of a vertex that has moved from old to new. */
  ghost function Correction(part: Placement, n: nat, from: Shard, to: Shard, k: Shard): Acct -> int
    requires n > 0
  {
    (u: Acct) =>
      var s := LocOf(part, u, n);
      if s != to && s != from then (if k == to then 1 else 0) - (if k == from then 1 else 0)
      else if s == to then (if k == from then -1 else 0)
      else if k == to then 1 else 0
  }

  ghost function SelfLoops(edges: seq<Edge>, v: Acct): int {
    SeqSum(edges, (e: Edge) => if e.u == v && e.w == v then 1 else 0)
  }

  /**
   * The incremental correction of a move is the change of the recomputed weight, short by one in both shards for
   * every self-loop of the vertex that moved.
   */
  lemma {:induction false} CorrectionIs(edges: seq<Edge>, part: Placement, n: nat, v: Acct, to: Shard, k: Shard)
    requires n > 0 && v in part && to != part[v]
    ensures SeqSum(Neighbours(edges, v), Correction(part[v := to], n, part[v], to, k)) ==
            Weight(edges, part[v := to], n, k) - Weight(edges, part, n, k)
            - (if k == to || k == part[v] then SelfLoops(edges, v) else 0)
  {
    NeighboursSum(edges, v, Correction(part[v := to], n, part[v], to, k));
    CorrectionByEdge(edges, part, n, v, to, k);
  }

  lemma {:induction false} CorrectionByEdge(edges: seq<Edge>, part: Placement, n: nat, v: Acct, to: Shard, k: Shard)
    requires n > 0 && v in part && to != part[v]
    ensures SeqSum(edges, AtEnds(v, Correction(part[v := to], n, part[v], to, k))) ==
            Weight(edges, part[v := to], n, k) - Weight(edges, part, n, k)
            - (if k == to || k == part[v] then SelfLoops(edges, v) else 0)
  {
    if edges != [] { CorrectionByEdge(edges[..|edges| - 1], part, n, v, to, k); }
  }
}
