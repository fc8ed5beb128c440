/** A vertex with a self-loop that moves: the weights are then no longer those a recomputation would give. */
module ClpaDrift {
  import opened Prelude
  import opened Accounts
  import opened Graph
  import opened Clpa
  import opened ClpaRun

  /** Vertices 0 and 2 in shard 0, vertex 1 in shard 1; a self-loop at 0 and an edge between 0 and 1. */
  const PART: Placement := map[0 := 0, 1 := 1, 2 := 0]
  function Edges(): seq<Edge> { [Edge(0, 0), Edge(0, 1)] }
  function Before(): Table { Table(PART, [2.0, 1.0], [2, 1]) }

  lemma BeforeIsRight()
    ensures CountsAreRight(2, Before()) && WeightsAreRight(Edges(), 2, Before())
  {
    assert Residents(PART, 0) == {0, 2} && Residents(PART, 1) == {1};
    forall k | 0 <= k < 2 ensures Weight(Edges(), PART, 2, k) == if k == 0 then 2 else 1 {
      assert Edges()[..1] == [Edge(0, 0)] && [Edge(0, 0)][..0] == [];
    }
  }

  lemma NeighboursOfZero()
    ensures Neighbours(Edges(), 0) == [0, 0, 1]
  {
    assert Neighbours([], 0) == [];
    NeighboursSnoc([], Edge(0, 0), 0);
    NeighboursSnoc([Edge(0, 0)], Edge(0, 1), 0);
    assert [] + [Edge(0, 0)] == [Edge(0, 0)] && [Edge(0, 0)] + [Edge(0, 1)] == Edges();
  }

  /** Two of the three neighbours are the vertex itself; shard 1 is the only other shard, and worth going to. */
  lemma ZeroMoves(penalty: real)
    requires penalty <= 1.0
    ensures Target(Edges(), 2, penalty, Before(), 0) == 1
  {
    NeighboursOfZero();
    var adjacent := Neighbours(Edges(), 0);
    hide Neighbours;
    BestIsBest(adjacent, 3, PART, 2, penalty, [2.0, 1.0], 0);
    OnlyOneThere(adjacent);
    assert [2.0, 1.0][..1] == [2.0];
    assert MinOf([2.0, 1.0]) == 1.0;
    assert LocOf(PART, adjacent[2], 2) == 1;
    ScoreIsPositive(penalty);
  }

  lemma OnlyOneThere(adjacent: seq<Acct>)
    requires adjacent == [0, 0, 1]
    ensures CountAt(adjacent, PART, 2, 1) == 1
  {
    assert adjacent[..2] == [0, 0] && [0, 0][..1] == [0] && [0][..0] == [];
    assert CountAt([0], PART, 2, 1) == 0;
    assert CountAt([0, 0], PART, 2, 1) == 0;
  }

  lemma ScoreIsPositive(penalty: real)
    requires penalty <= 1.0
    ensures Above(ScoreFrom(1, 3, penalty, 1.0, 1.0), LEAST_SCORE)
  {
    var share := 1 as real / 3 as real;
    assert share > 0.0;
    assert share * (1.0 - penalty * 1.0 / 1.0) >= 0.0;
  }

  /** From right counts and weights, one visit of the vertex with the self-loop leads to wrong weights. */
  lemma SelfLoopDrifts(penalty: real)
    requires penalty <= 1.0
    ensures var p := Visit(Edges(), 2, penalty, Begin(Before()), 0);
            p.t.part[0] == 1 && !WeightsAreRight(Edges(), 2, p.t)
  {
    BeforeIsRight();
    ZeroMoves(penalty);
    IncrementalIsExactIff(Edges(), 2, Before(), 0, 1);
    assert Edges()[0] in Edges();
  }
}
