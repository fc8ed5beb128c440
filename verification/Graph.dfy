/** The undirected transaction multigraph and its adjacency lists. */
module Graph {
  import opened Prelude
  import opened Accounts

  datatype Edge = Edge(u: Acct, w: Acct)

  /** The adjacency list of v after the edges have been added in order; a self-loop enters twice. */
  function Neighbours(edges: seq<Edge>, v: Acct): seq<Acct> {
    if edges == [] then [] else
    var e := edges[|edges| - 1];
    Neighbours(edges[..|edges| - 1], v) + (if e.u == v then [e.w] else []) + (if e.w == v then [e.u] else [])
  }

  lemma NeighboursSnoc(edges: seq<Edge>, e: Edge, v: Acct)
    ensures Neighbours(edges + [e], v) ==
            Neighbours(edges, v) + (if e.u == v then [e.w] else []) + (if e.w == v then [e.u] else [])
  {
    assert (edges + [e])[..|edges|] == edges;
  }

  /** What an edge adds to a sum over the neighbours of v. */
  ghost function AtEnds(v: Acct, g: Acct -> int): Edge -> int {
    (e: Edge) => (if e.u == v then g(e.w) else 0) + (if e.w == v then g(e.u) else 0)
  }

  /** A sum over the adjacency list of v is a sum over the edges at v. */
  lemma {:induction false} NeighboursSum(edges: seq<Edge>, v: Acct, g: Acct -> int)
    ensures SeqSum(Neighbours(edges, v), g) == SeqSum(edges, AtEnds(v, g))
  {
    if edges != [] {
      var most, e := edges[..|edges| - 1], edges[|edges| - 1];
      NeighboursSum(most, v, g);
      var first := if e.u == v then [e.w] else [];
      var second := if e.w == v then [e.u] else [];
      SeqSumAppend(Neighbours(most, v) + first, second, g);
      SeqSumAppend(Neighbours(most, v), first, g);
      SeqSumOne(e.w, g);
      SeqSumOne(e.u, g);
    }
  }

  lemma {:induction false} NeighboursMembers(edges: seq<Edge>, v: Acct, x: Acct)
    ensures x in Neighbours(edges, v) <==> exists e :: e in edges && ((e.u == v && e.w == x) || (e.w == v && e.u == x))
  {
    if edges != [] {
      var most, last := edges[..|edges| - 1], edges[|edges| - 1];
      NeighboursMembers(most, v, x);
      assert edges == most + [last];
    }
  }

  /** The multigraph is symmetric: u is as often a neighbour of v as v is of u. */
  lemma {:induction false} NeighboursSymmetric(edges: seq<Edge>, u: Acct, v: Acct)
    ensures multiset(Neighbours(edges, u))[v] == multiset(Neighbours(edges, v))[u]
  {
    if edges != [] { NeighboursSymmetric(edges[..|edges| - 1], u, v); }
  }

  function ListAt(adjacency: map<Acct, seq<Acct>>, v: Acct): seq<Acct> {
    if v in adjacency then adjacency[v] else []
  }

  ghost predicate Represents(adjacency: map<Acct, seq<Acct>>, edges: seq<Edge>) {
    forall v: Acct :: ListAt(adjacency, v) == Neighbours(edges, v)
  }

  lemma OneMoreEdge(before: map<Acct, seq<Acct>>, edges: seq<Edge>, u: Acct, v: Acct)
    requires Represents(before, edges)
    ensures var half := before[u := ListAt(before, u) + [v]];
            Represents(half[v := ListAt(half, v) + [u]], edges + [Edge(u, v)])
  {
    var half := before[u := ListAt(before, u) + [v]];
    var after := half[v := ListAt(half, v) + [u]];
    forall x: Acct ensures ListAt(after, x) == Neighbours(edges + [Edge(u, v)], x) {
      NeighboursSnoc(edges, Edge(u, v), x);
      assert ListAt(before, x) == Neighbours(edges, x);
    }
  }

  class Graph {
    var VertexSet: set<Acct>
    var EdgeSet: map<Acct, seq<Acct>>
    ghost var edges: seq<Edge>

    ghost predicate Valid()
      reads this
    {
      && EdgeSet.Keys <= VertexSet
      && Represents(EdgeSet, edges)
      && (forall e :: e in edges ==> e.u in VertexSet && e.w in VertexSet)
    }

    constructor ()
      ensures Valid() && edges == [] && VertexSet == {}
    {
      VertexSet, EdgeSet, edges := {}, map[], [];
    }

    method AddVertex(v: Acct)
      requires Valid()
      modifies this
      ensures Valid() && edges == old(edges) && VertexSet == old(VertexSet) + {v}
    {
      VertexSet := VertexSet + {v};
    }

    method AddEdge(u: Acct, v: Acct)
      requires Valid()
      modifies this
      ensures Valid() && edges == old(edges) + [Edge(u, v)] && VertexSet == old(VertexSet) + {u, v}
    {
      AddVertex(u);
      AddVertex(v);
      OneMoreEdge(EdgeSet, edges, u, v);
      EdgeSet := EdgeSet[u := ListAt(EdgeSet, u) + [v]];
      EdgeSet := EdgeSet[v := ListAt(EdgeSet, v) + [u]];
      edges := edges + [Edge(u, v)];
    }
  }
}
