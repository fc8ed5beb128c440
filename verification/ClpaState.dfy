/** The partition state of the supervisor as an object, with its in-place loops. */
module ClpaState {
  import opened Prelude
  import opened Accounts
  import opened Graph
  import opened Clpa
  import opened ClpaRun

  class CLPAState {
    const netGraph: Graph
    const shardNum: nat
    const maxIterations: nat
    const weightPenalty: real
    var partitionMap: Placement
    var shardWeight: seq<real>
    var vertexNumInShard: seq<int>
    var minShardWeight: real
    var crossShardEdgeNum: real

    constructor (wp: real, maxIterations: nat, shardNum: nat)
      requires shardNum > 0
      ensures Valid() && fresh(netGraph) && partitionMap == map[] && netGraph.edges == []
      ensures weightPenalty == wp && this.maxIterations == maxIterations && this.shardNum == shardNum
    {
      netGraph := new Graph();
      partitionMap := map[];
      shardWeight := seq(shardNum, _ => 0.0);
      vertexNumInShard := seq(shardNum, _ => 0);
      minShardWeight, crossShardEdgeNum := 0.0, 0.0;
      weightPenalty := wp;
      this.maxIterations, this.shardNum := maxIterations, shardNum;
      new;
      forall k | 0 <= k < shardNum ensures |Residents(partitionMap, k)| == 0 {
        assert Residents(partitionMap, k) == {};
      }
    }

    ghost function T(): Table
      reads this
    {
      Table(partitionMap, shardWeight, vertexNumInShard)
    }

    ghost predicate Valid()
      reads this, netGraph
    {
      netGraph.Valid() && partitionMap.Keys == netGraph.VertexSet && CountsAreRight(shardNum, T())
    }

    // ------------------------------------------------------------------- the graph

    /** A vertex that is new to the graph goes to its default shard. */
    method AddVertex(v: Acct)
      requires netGraph.Valid() && CountsAreRight(shardNum, T())
      modifies this, netGraph
      ensures netGraph.Valid() && CountsAreRight(shardNum, T())
      ensures netGraph.edges == old(netGraph.edges) && netGraph.VertexSet == old(netGraph.VertexSet) + {v}
      ensures partitionMap == map[v := DefaultAccountLoc(v, shardNum)] + old(partitionMap)
    {
      netGraph.AddVertex(v);
      if v !in partitionMap {
        var loc := DefaultAccountLoc(v, shardNum);
        CountsAfterArrival(shardNum, T(), v, loc);
        partitionMap := partitionMap[v := loc];
        vertexNumInShard := vertexNumInShard[loc := vertexNumInShard[loc] + 1];
      }
    }

    method AddEdge(u: Acct, v: Acct)
      requires Valid()
      modifies this, netGraph
      ensures Valid() && netGraph.edges == old(netGraph.edges) + [Edge(u, v)]
      ensures partitionMap == map[u := DefaultAccountLoc(u, shardNum), v := DefaultAccountLoc(v, shardNum)] + old(partitionMap)
    {
      if u !in netGraph.VertexSet { AddVertex(u); }
      if v !in netGraph.VertexSet { AddVertex(v); }
      netGraph.AddEdge(u, v);
    }

    // ----------------------------------------------------------------- recomputation

    /** The neighbours of one vertex are counted as inner or as cross-shard. */
    method TallyVertex(v: Acct, crossEdge: array<int>, interEdge: array<int>)
      requires TableOk(shardNum, T()) && netGraph.Valid()
      requires crossEdge != interEdge && crossEdge.Length == interEdge.Length == shardNum
      modifies crossEdge, interEdge
      ensures Added(old(crossEdge[..]), old(interEdge[..]), crossEdge[..], interEdge[..], Neighbours(netGraph.edges, v), v, partitionMap, shardNum)
    {
      var lst := ListAt(netGraph.EdgeSet, v);
      var vShard := LocOf(partitionMap, v, shardNum);
      ghost var c, e := crossEdge[..], interEdge[..];
      NothingAdded(c, e, v, partitionMap, shardNum);
      hide Added;
      for i := 0 to |lst|
        invariant Added(c, e, crossEdge[..], interEdge[..], lst[..i], v, partitionMap, shardNum)
      {
        assert lst[..i + 1] == lst[..i] + [lst[i]];
        TallyNeighbour(v, vShard, lst[i], c, e, lst[..i], crossEdge, interEdge);
      }
      assert lst[..|lst|] == lst;
    }

    method TallyNeighbour(v: Acct, vShard: Shard, u: Acct, ghost c: seq<int>, ghost e: seq<int>, ghost before: seq<Acct>, crossEdge: array<int>, interEdge: array<int>)
      requires TableOk(shardNum, T()) && vShard == LocOf(partitionMap, v, shardNum)
      requires crossEdge != interEdge && crossEdge.Length == interEdge.Length == shardNum
      requires Added(c, e, crossEdge[..], interEdge[..], before, v, partitionMap, shardNum)
      modifies crossEdge, interEdge
      ensures Added(c, e, crossEdge[..], interEdge[..], before + [u], v, partitionMap, shardNum)
    {
      assert vShard < shardNum;
      AddedOne(c, e, crossEdge[..], interEdge[..], before, u, v, partitionMap, shardNum);
      hide *;
      if vShard != LocOf(partitionMap, u, shardNum) {
        Increment(crossEdge, vShard);
      } else {
        Increment(interEdge, vShard);
      }
    }

    static method Increment(counts: array<int>, k: nat)
      requires k < counts.Length
      modifies counts
      ensures counts[..] == old(counts[..])[k := old(counts[k]) + 1]
    {
      counts[k] := counts[k] + 1;
    }

    method TallyNext(v: Acct, ghost done: set<Acct>, crossEdge: array<int>, interEdge: array<int>)
      requires TableOk(shardNum, T()) && netGraph.Valid()
      requires crossEdge != interEdge && v !in done
      requires Tallied(crossEdge[..], interEdge[..], netGraph.edges, done, partitionMap, shardNum)
      modifies crossEdge, interEdge
      ensures Tallied(crossEdge[..], interEdge[..], netGraph.edges, done + {v}, partitionMap, shardNum)
    {
      ghost var c, i := crossEdge[..], interEdge[..];
      TallyVertex(v, crossEdge, interEdge);
      TalliedMore(c, i, crossEdge[..], interEdge[..], netGraph.edges, done, v, partitionMap, shardNum);
    }

    /** Every vertex with an adjacency list is tallied. */
    method TallyAll() returns (crossEdge: array<int>, interEdge: array<int>)
      requires Valid()
      ensures fresh(crossEdge) && fresh(interEdge)
      ensures Tallied(crossEdge[..], interEdge[..], netGraph.edges, netGraph.EdgeSet.Keys, partitionMap, shardNum)
    {
      crossEdge := new int[shardNum](_ => 0);
      interEdge := new int[shardNum](_ => 0);
      var todo := netGraph.EdgeSet.Keys;
      ghost var all := netGraph.EdgeSet.Keys;
      TalliedNone(netGraph.edges, partitionMap, shardNum);
      assert all - todo == {} && crossEdge[..] == interEdge[..] == seq(shardNum, _ => 0);
      hide Tallied;
      while todo != {}
        invariant todo <= all
        invariant Tallied(crossEdge[..], interEdge[..], netGraph.edges, all - todo, partitionMap, shardNum)
        decreases |todo|
      {
        var v :| v in todo;
        TallyNext(v, all - todo, crossEdge, interEdge);
        assert all - (todo - {v}) == (all - todo) + {v};
        todo := todo - {v};
      }
      assert all - todo == all;
    }

    /** The recomputed weights are the numbers of edges that touch each shard. */
    method ComputeEdges2Shard()
      requires Valid()
      modifies this`shardWeight, this`minShardWeight, this`crossShardEdgeNum
      ensures Valid() && WeightsAreRight(netGraph.edges, shardNum, T())
      ensures minShardWeight == MinOf(shardWeight)
      ensures crossShardEdgeNum == CutEdges(netGraph.edges, partitionMap, shardNum) as real
    {
      var crossEdge, interEdge := TallyAll();
      EndsAreListed(netGraph.edges, netGraph.EdgeSet);
      TalliedAll(crossEdge[..], interEdge[..], netGraph.edges, netGraph.EdgeSet.Keys, partitionMap, shardNum);
      crossShardEdgeNum := HalfSum(crossEdge);
      shardWeight := Weights(crossEdge, interEdge);
      minShardWeight := MinOf(shardWeight);
    }

    static method HalfSum(counts: array<int>) returns (r: real)
      ensures r == Sum(SumOf(counts[..]), counts.Length) as real / 2.0
    {
      r := 0.0;
      for i := 0 to counts.Length
        invariant r == Sum(SumOf(counts[..]), i) as real / 2.0
      {
        r := r + counts[i] as real / 2.0;
      }
    }

    static method Weights(crossEdge: array<int>, interEdge: array<int>) returns (w: seq<real>)
      requires crossEdge.Length == interEdge.Length
      ensures |w| == crossEdge.Length
      ensures forall k :: 0 <= k < |w| ==> w[k] == crossEdge[k] as real + interEdge[k] as real / 2.0
    {
      w := [];
      for i := 0 to crossEdge.Length
        invariant |w| == i
        invariant forall k :: 0 <= k < i ==> w[k] == crossEdge[k] as real + interEdge[k] as real / 2.0
      {
        w := w + [crossEdge[i] as real + interEdge[i] as real / 2.0];
      }
    }

    /** The incremental update after v has moved away from old. */
    method ChangeShardRecompute(v: Acct, from: Shard)
      requires netGraph.Valid() && TableOk(shardNum, T()) && v in partitionMap && from < shardNum && partitionMap[v] != from
      modifies this`shardWeight, this`minShardWeight
      ensures |shardWeight| == shardNum
      ensures forall k :: 0 <= k < shardNum ==>
        shardWeight[k] == old(shardWeight)[k]
          + SeqSum(Neighbours(netGraph.edges, v), Correction(partitionMap, shardNum, from, partitionMap[v], k)) as real
      ensures minShardWeight == MinOf(shardWeight)
    {
      var newShard := LocOf(partitionMap, v, shardNum);
      var lst := ListAt(netGraph.EdgeSet, v);
      for i := 0 to |lst|
        invariant |shardWeight| == shardNum
        invariant forall k :: 0 <= k < shardNum ==>
          shardWeight[k] == old(shardWeight)[k] + SeqSum(lst[..i], Correction(partitionMap, shardNum, from, newShard, k)) as real
      {
        assert lst[..i + 1] == lst[..i] + [lst[i]];
        forall k | 0 <= k < shardNum {
          SeqSumSnoc(lst[..i], lst[i], Correction(partitionMap, shardNum, from, newShard, k));
        }
        var uShard := LocOf(partitionMap, lst[i], shardNum);
        if uShard != newShard && uShard != from {
          shardWeight := shardWeight[newShard := shardWeight[newShard] + 1.0];
          shardWeight := shardWeight[from := shardWeight[from] - 1.0];
        } else if uShard == newShard {
          shardWeight := shardWeight[from := shardWeight[from] - 1.0];
        } else {
          shardWeight := shardWeight[newShard := shardWeight[newShard] + 1.0];
        }
      }
      assert lst[..|lst|] == lst;
      minShardWeight := MinOf(shardWeight);
    }

    // ------------------------------------------------------------------------ scores

    method GetShardScore(v: Acct, uShard: Shard) returns (score: Score)
      requires Valid() && uShard < shardNum && minShardWeight == MinOf(shardWeight)
      requires CountAt(Neighbours(netGraph.edges, v), partitionMap, shardNum, uShard) > 0
      ensures score == ShardScore(Neighbours(netGraph.edges, v), partitionMap, shardNum, weightPenalty, shardWeight, uShard)
    {
      var lst := ListAt(netGraph.EdgeSet, v);
      var edge2uShard := 0;
      for i := 0 to |lst|
        invariant edge2uShard == CountAt(lst[..i], partitionMap, shardNum, uShard)
      {
        assert lst[..i + 1][..i] == lst[..i];
        if LocOf(partitionMap, lst[i], shardNum) == uShard { edge2uShard := edge2uShard + 1; }
      }
      assert lst[..|lst|] == lst;
      score := ScoreFrom(edge2uShard, |lst|, weightPenalty, shardWeight[uShard], minShardWeight);
    }

    /** Each neighbouring shard is scored once; the outcome is the same as scoring every neighbour. */
    method ChooseShard(v: Acct) returns (maxScoreShard: Shard)
      requires Valid() && v in partitionMap && minShardWeight == MinOf(shardWeight)
      ensures maxScoreShard == Target(netGraph.edges, shardNum, weightPenalty, T(), v)
    {
      var lst := ListAt(netGraph.EdgeSet, v);
      var neighborShardScore: map<Shard, Score> := map[];
      var vNowShard := partitionMap[v];
      var maxScore := LEAST_SCORE;
      maxScoreShard := vNowShard;
      for i := 0 to |lst|
        invariant Choice(maxScore, maxScoreShard) == Best(lst, i, partitionMap, shardNum, weightPenalty, shardWeight, vNowShard)
        invariant forall s :: s in neighborShardScore ==> exists j :: 0 <= j < i && LocOf(partitionMap, lst[j], shardNum) == s && s != vNowShard
      {
        var uShard := LocOf(partitionMap, lst[i], shardNum);
        if uShard == vNowShard { continue; }
        BestIsBest(lst, i, partitionMap, shardNum, weightPenalty, shardWeight, vNowShard);
        if uShard !in neighborShardScore {
          var score := GetShardScore(v, uShard);
          neighborShardScore := neighborShardScore[uShard := score];
          if Above(score, maxScore) {
            maxScore, maxScoreShard := score, uShard;
          }
        }
      }
    }

    // --------------------------------------------------------------------- the run

    method MoveVertex(v: Acct, to: Shard)
      requires Valid() && v in partitionMap && to < shardNum && to != partitionMap[v]
      modifies this`partitionMap, this`vertexNumInShard, this`shardWeight, this`minShardWeight
      ensures Valid() && minShardWeight == MinOf(shardWeight)
      ensures T() == Moved(netGraph.edges, shardNum, old(T()), v, to)
    {
      var from := partitionMap[v];
      ghost var before := T();
      CountsAfterMove(netGraph.edges, shardNum, before, v, to);
      partitionMap := partitionMap[v := to];
      vertexNumInShard := vertexNumInShard[from := vertexNumInShard[from] - 1];
      vertexNumInShard := vertexNumInShard[to := vertexNumInShard[to] + 1];
      ChangeShardRecompute(v, from);
      assert shardWeight == Corrected(netGraph.edges, shardNum, before, v, to);
    }

    /** One vertex is visited. */
    method VisitVertex(v: Acct, ret: map<Acct, Shard>, updateTimes: map<Acct, nat>) returns (ret': map<Acct, Shard>, updateTimes': map<Acct, nat>)
      requires Valid() && v in partitionMap && minShardWeight == MinOf(shardWeight)
      modifies this`partitionMap, this`vertexNumInShard, this`shardWeight, this`minShardWeight
      ensures Valid() && minShardWeight == MinOf(shardWeight)
      ensures Progress(T(), updateTimes', ret') ==
              Visit(netGraph.edges, shardNum, weightPenalty, Progress(old(T()), updateTimes, ret), v)
    {
      hide Target, Moved;
      ret', updateTimes' := ret, updateTimes;
      var times := if v in updateTimes then updateTimes[v] else 0;
      if times >= UPDATE_THRESHOLD { return; }
      var vNowShard := partitionMap[v];
      var maxScoreShard := ChooseShard(v);
      if vNowShard != maxScoreShard && vertexNumInShard[vNowShard] > 1 {
        MoveVertex(v, maxScoreShard);
        ret' := ret'[v := maxScoreShard];
        updateTimes' := updateTimes'[v := times + 1];
      }
    }

    /** One pass over all vertices, in whatever order the map yields them. */
    method Pass(ret: map<Acct, Shard>, updateTimes: map<Acct, nat>)
        returns (ret': map<Acct, Shard>, updateTimes': map<Acct, nat>, ghost order: seq<Acct>)
      requires Valid() && minShardWeight == MinOf(shardWeight)
      modifies this`partitionMap, this`vertexNumInShard, this`shardWeight, this`minShardWeight
      ensures Valid() && minShardWeight == MinOf(shardWeight)
      ensures IsOrder(order, old(partitionMap).Keys)
      ensures Progress(T(), updateTimes', ret') ==
              Visits(netGraph.edges, shardNum, weightPenalty, Progress(old(T()), updateTimes, ret), order)
    {
      hide Visit;
      ret', updateTimes', order := ret, updateTimes, [];
      ghost var start := Progress(T(), updateTimes, ret);
      var todo := netGraph.VertexSet;
      while todo != {}
        invariant Valid() && minShardWeight == MinOf(shardWeight)
        invariant partitionMap.Keys == start.t.part.Keys
        invariant todo <= partitionMap.Keys
        invariant IsOrder(order, partitionMap.Keys - todo)
        invariant Progress(T(), updateTimes', ret') == Visits(netGraph.edges, shardNum, weightPenalty, start, order)
        decreases |todo|
      {
        var v :| v in todo;
        assert (order + [v])[..|order|] == order;
        ret', updateTimes' := VisitVertex(v, ret', updateTimes');
        order := order + [v];
        todo := todo - {v};
      }
    }

    /**
     * A repartition: maxIterations passes, each over every vertex once. What it returns is the difference between
     * the placements before and after.
     */
    method CLPAPartition() returns (ret: map<Acct, Shard>, cross: real, ghost orders: seq<seq<Acct>>)
      requires Valid()
      modifies this
      ensures Valid() && WeightsAreRight(netGraph.edges, shardNum, T())
      ensures |orders| == maxIterations && forall i :: 0 <= i < |orders| ==> IsOrder(orders[i], old(partitionMap).Keys)
      ensures exists start: Table ::
        && start.part == old(partitionMap) && start.num == old(vertexNumInShard) && WeightsAreRight(netGraph.edges, shardNum, start)
        && partitionMap == Passes(netGraph.edges, shardNum, weightPenalty, Begin(start), orders).t.part
      ensures ret == map a | a in partitionMap && partitionMap[a] != old(partitionMap)[a] :: partitionMap[a]
      ensures partitionMap.Keys == old(partitionMap).Keys
      ensures cross == CutEdges(netGraph.edges, partitionMap, shardNum) as real
    {
      ComputeEdges2Shard();
      ghost var start := T();
      var originalLoc := partitionMap;
      ret, orders := RunPasses();
      ResultIsDifference(netGraph.edges, shardNum, weightPenalty, start, orders);
      ret := Pruned(ret, originalLoc);
      ComputeEdges2Shard();
      cross := crossShardEdgeNum;
    }

    method RunPasses() returns (ret: map<Acct, Shard>, ghost orders: seq<seq<Acct>>)
      requires Valid() && minShardWeight == MinOf(shardWeight)
      modifies this`partitionMap, this`vertexNumInShard, this`shardWeight, this`minShardWeight
      ensures Valid() && minShardWeight == MinOf(shardWeight)
      ensures |orders| == maxIterations && forall i :: 0 <= i < |orders| ==> IsOrder(orders[i], old(partitionMap).Keys)
      ensures var p := Passes(netGraph.edges, shardNum, weightPenalty, Begin(old(T())), orders); T() == p.t && ret == p.moved
    {
      hide Visits;
      ghost var start := T();
      ret := map[];
      var updateTimes: map<Acct, nat> := map[];
      orders := [];
      for i := 0 to maxIterations
        invariant Valid() && minShardWeight == MinOf(shardWeight)
        invariant |orders| == i && forall j :: 0 <= j < i ==> IsOrder(orders[j], start.part.Keys)
        invariant Progress(T(), updateTimes, ret) == Passes(netGraph.edges, shardNum, weightPenalty, Begin(start), orders)
      {
        ghost var order;
        ret, updateTimes, order := Pass(ret, updateTimes);
        assert (orders + [order])[..i] == orders;
        orders := orders + [order];
      }
    }
  }

  /** Both ends of every edge have an adjacency list. */
  lemma EndsAreListed(edges: seq<Edge>, adjacency: map<Acct, seq<Acct>>)
    requires Represents(adjacency, edges)
    ensures forall e :: e in edges ==> e.u in adjacency && e.w in adjacency
  {
    forall e | e in edges ensures e.u in adjacency && e.w in adjacency {
      NeighboursMembers(edges, e.u, e.w);
      NeighboursMembers(edges, e.w, e.u);
      assert ListAt(adjacency, e.u) == Neighbours(edges, e.u) && ListAt(adjacency, e.w) == Neighbours(edges, e.w);
    }
  }
}
