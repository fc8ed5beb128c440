/** A run of label propagation as a function of the orders in which the vertices are visited, and what it keeps. */
module ClpaRun {
  import opened Prelude
  import opened Accounts
  import opened Graph
  import opened Clpa

  // ---------------------------------------------------------------------- scores

  /** Floating-point scores with exact arithmetic and the special values that a zero minimum weight produces. */
  datatype Score = Finite(r: real) | PosInf | NegInf | NaN

  /** a > b, as floating-point numbers compare. */
  predicate Above(a: Score, b: Score) {
    match (a, b)
    case (Finite(x), Finite(y)) => x > y
    case (Finite(_), NegInf) => true
    case (PosInf, Finite(_)) => true
    case (PosInf, NegInf) => true
    case _ => false
  }

  const LEAST_SCORE: Score := Finite(-9999.0)

  function MinOf(s: seq<real>): (r: real)
    requires |s| > 0
    ensures r in s && forall i :: 0 <= i < |s| ==> r <= s[i]
  {
    if |s| == 1 then s[0] else
    var m := MinOf(s[..|s| - 1]);
    var x := s[|s| - 1];
    assert forall i :: 0 <= i < |s| ==> s[i] == x || (i < |s| - 1 && s[i] == s[..|s| - 1][i]);
    if x < m then x else m
  }

  function CountAt(adjacent: seq<Acct>, part: Placement, n: nat, s: Shard): (c: nat)
    requires n > 0
    ensures c <= |adjacent|
    ensures c > 0 <==> exists i :: 0 <= i < |adjacent| && LocOf(part, adjacent[i], n) == s
  {
    if adjacent == [] then 0 else
    var rest := CountAt(adjacent[..|adjacent| - 1], part, n, s);
    var last := adjacent[|adjacent| - 1];
    if LocOf(part, last, n) == s then rest + 1 else rest
  }

  /** share * (1 - penalty * weight / minimum), the quotient being infinite or undefined when the minimum is zero. */
  function ShardScore(adjacent: seq<Acct>, part: Placement, n: nat, penalty: real, weight: seq<real>, s: Shard): Score
    requires n > 0 && |weight| == n && s < n && CountAt(adjacent, part, n, s) > 0
  {
    ScoreFrom(CountAt(adjacent, part, n, s), |adjacent|, penalty, weight[s], MinOf(weight))
  }

  function ScoreFrom(edges: nat, degree: nat, penalty: real, weight: real, least: real): Score
    requires degree > 0
  {
    if least != 0.0 then Finite(edges as real / degree as real * (1.0 - penalty * weight / least))
    else if penalty * weight > 0.0 then NegInf
    else if penalty * weight < 0.0 then PosInf
    else NaN
  }

  /** A finite score, cleared of its quotients. */
  lemma ScoreIs(edges: nat, degree: nat, penalty: real, weight: real, least: real)
    requires degree > 0 && least != 0.0
    ensures var s := ScoreFrom(edges, degree, penalty, weight, least);
            s.Finite? && s.r * degree as real * least == edges as real * (least - penalty * weight)
  {
    var d, e := degree as real, edges as real;
    var share, load := e / d, penalty * weight / least;
    assert share * d == e && load * least == penalty * weight;
    assert share * (1.0 - load) * d * least == (share * d) * (least - load * least);
  }

  lemma MulOrder(a: real, b: real, c: real)
    requires c > 0.0
    ensures a > b <==> a * c > b * c
  {
  }

  /** Two finite scores compare as their numerators do. */
  lemma ScoresCompare(e1: nat, e2: nat, degree: nat, penalty: real, w1: real, w2: real, least: real)
    requires degree > 0 && least > 0.0
    ensures Above(ScoreFrom(e1, degree, penalty, w1, least), ScoreFrom(e2, degree, penalty, w2, least))
            <==> e1 as real * (least - penalty * w1) > e2 as real * (least - penalty * w2)
  {
    ScoreIs(e1, degree, penalty, w1, least);
    ScoreIs(e2, degree, penalty, w2, least);
    var s1, s2 := ScoreFrom(e1, degree, penalty, w1, least), ScoreFrom(e2, degree, penalty, w2, least);
    MulOrder(s1.r, s2.r, degree as real * least);
    assert s1.r * (degree as real * least) == s1.r * degree as real * least;
    assert s2.r * (degree as real * least) == s2.r * degree as real * least;
  }

  /** With as many neighbours, the strictly heavier shard scores strictly lower. */
  lemma HeavierScoresLower(edges: nat, degree: nat, penalty: real, heavy: real, light: real, least: real)
    requires edges > 0 && degree > 0 && penalty > 0.0 && least > 0.0 && heavy > light
    ensures Above(ScoreFrom(edges, degree, penalty, light, least), ScoreFrom(edges, degree, penalty, heavy, least))
  {
    ScoresCompare(edges, edges, degree, penalty, light, heavy, least);
    MulOrder(heavy, light, penalty);
    MulOrder(least - penalty * light, least - penalty * heavy, edges as real);
  }

  /**
   * With equal weights, more neighbours score higher exactly as long as the penalized weight stays below the minimum;
   * beyond that they score lower.
   */
  lemma MoreNeighboursScore(more: nat, fewer: nat, degree: nat, penalty: real, weight: real, least: real)
    requires more > fewer && degree > 0 && least > 0.0
    ensures Above(ScoreFrom(more, degree, penalty, weight, least), ScoreFrom(fewer, degree, penalty, weight, least)) <==> penalty * weight < least
    ensures Above(ScoreFrom(fewer, degree, penalty, weight, least), ScoreFrom(more, degree, penalty, weight, least)) <==> penalty * weight > least
  {
    ScoresCompare(more, fewer, degree, penalty, weight, weight, least);
    ScoresCompare(fewer, more, degree, penalty, weight, weight, least);
    var bracket := least - penalty * weight;
    assert more as real * bracket - fewer as real * bracket == (more - fewer) as real * bracket;
    MulOrder(bracket, 0.0, (more - fewer) as real);
    MulOrder(0.0, bracket, (more - fewer) as real);
  }

  // ------------------------------------------------------------- the choice of a shard

  datatype Choice = Choice(score: Score, shard: Shard)

  /** The best neighbouring shard so far; the first of several equally good ones, or the present shard. */
  function Best(adjacent: seq<Acct>, upto: nat, part: Placement, n: nat, penalty: real, weight: seq<real>, now: Shard): (c: Choice)
    requires n > 0 && |weight| == n && upto <= |adjacent| && forall a :: a in part ==> part[a] < n
    ensures c.shard == now || c.shard < n
    decreases upto
  {
    if upto == 0 then Choice(LEAST_SCORE, now) else
    var c := Best(adjacent, upto - 1, part, n, penalty, weight, now);
    var s := LocOf(part, adjacent[upto - 1], n);
    if s == now then c else
    var score := ShardScore(adjacent, part, n, penalty, weight, s);
    if Above(score, c.score) then Choice(score, s) else c
  }

  /** The chosen shard holds a neighbour and no neighbouring shard scores higher; if none is chosen, none is worth it. */
  lemma {:induction false} BestIsBest(adjacent: seq<Acct>, upto: nat, part: Placement, n: nat, penalty: real, weight: seq<real>, now: Shard)
    requires n > 0 && |weight| == n && upto <= |adjacent| && forall a :: a in part ==> part[a] < n
    ensures var c := Best(adjacent, upto, part, n, penalty, weight, now);
            && !c.score.NaN?
            && (c.shard == now ==> c.score == LEAST_SCORE)
            && (c.shard != now ==> CountAt(adjacent, part, n, c.shard) > 0 && Above(c.score, LEAST_SCORE) &&
                                   c.score == ShardScore(adjacent, part, n, penalty, weight, c.shard))
            && (forall i :: 0 <= i < upto && LocOf(part, adjacent[i], n) != now ==>
                  !Above(ShardScore(adjacent, part, n, penalty, weight, LocOf(part, adjacent[i], n)), c.score))
    decreases upto
  {
    if upto > 0 { BestIsBest(adjacent, upto - 1, part, n, penalty, weight, now); }
  }

  /** Of several equally good shards the first one met is chosen. */
  lemma {:induction false} FirstOfBest(adjacent: seq<Acct>, upto: nat, part: Placement, n: nat, penalty: real, weight: seq<real>, now: Shard)
      returns (i: nat)
    requires n > 0 && |weight| == n && upto <= |adjacent| && forall a :: a in part ==> part[a] < n
    ensures var c := Best(adjacent, upto, part, n, penalty, weight, now);
            c.shard != now ==>
              && i < upto && LocOf(part, adjacent[i], n) == c.shard
              && forall j :: 0 <= j < i && LocOf(part, adjacent[j], n) != now ==>
                   ShardScore(adjacent, part, n, penalty, weight, LocOf(part, adjacent[j], n)) != c.score
    decreases upto
  {
    i := 0;
    if upto > 0 {
      var before, c := Best(adjacent, upto - 1, part, n, penalty, weight, now), Best(adjacent, upto, part, n, penalty, weight, now);
      if c == before {
        i := FirstOfBest(adjacent, upto - 1, part, n, penalty, weight, now);
      } else {
        i := upto - 1;
        BestIsBest(adjacent, upto - 1, part, n, penalty, weight, now);
      }
    }
  }

  // --------------------------------------------------------------------- a run

  datatype Table = Table(part: Placement, weight: seq<real>, num: seq<int>)

  ghost predicate TableOk(n: nat, t: Table) {
    && n > 0 && |t.weight| == |t.num| == n
    && (forall a :: a in t.part ==> t.part[a] < n)
  }

  /** Times a vertex has moved, and the last place of each that did. */
  datatype Progress = Progress(t: Table, times: map<Acct, nat>, moved: map<Acct, Shard>)

  function Times(p: Progress, v: Acct): nat { if v in p.times then p.times[v] else 0 }

  ghost function Corrected(edges: seq<Edge>, n: nat, t: Table, v: Acct, to: Shard): (r: seq<real>)
    requires TableOk(n, t) && v in t.part
    ensures |r| == n
  {
    seq(n, k requires 0 <= k < n =>
      t.weight[k] + SeqSum(Neighbours(edges, v), Correction(t.part[v := to], n, t.part[v], to, k)) as real)
  }

  ghost function Moved(edges: seq<Edge>, n: nat, t: Table, v: Acct, to: Shard): Table
    requires TableOk(n, t) && v in t.part && to < n
  {
    var from := t.part[v];
    var fewer := t.num[from := t.num[from] - 1];
    Table(t.part[v := to], Corrected(edges, n, t, v, to), fewer[to := fewer[to] + 1])
  }

  ghost function Target(edges: seq<Edge>, n: nat, penalty: real, t: Table, v: Acct): (s: Shard)
    requires TableOk(n, t) && v in t.part
    ensures s < n
  {
    var adjacent := Neighbours(edges, v);
    Best(adjacent, |adjacent|, t.part, n, penalty, t.weight, t.part[v]).shard
  }

  ghost function Visit(edges: seq<Edge>, n: nat, penalty: real, p: Progress, v: Acct): (r: Progress)
    requires TableOk(n, p.t) && v in p.t.part
    ensures TableOk(n, r.t) && r.t.part.Keys == p.t.part.Keys
  {
    if Times(p, v) >= UPDATE_THRESHOLD then p else
    var from, to := p.t.part[v], Target(edges, n, penalty, p.t, v);
    if from == to || p.t.num[from] <= 1 then p else
    Progress(Moved(edges, n, p.t, v, to), p.times[v := Times(p, v) + 1], p.moved[v := to])
  }

  /** One pass visits every vertex once, in some order. */
  ghost predicate IsOrder(order: seq<Acct>, vertices: set<Acct>) {
    (forall i, j :: 0 <= i < j < |order| ==> order[i] != order[j]) && (forall v :: v in order <==> v in vertices)
  }

  ghost function Visits(edges: seq<Edge>, n: nat, penalty: real, p: Progress, order: seq<Acct>): (r: Progress)
    requires TableOk(n, p.t) && forall v :: v in order ==> v in p.t.part
    ensures TableOk(n, r.t) && r.t.part.Keys == p.t.part.Keys
  {
    if order == [] then p else
    Visit(edges, n, penalty, Visits(edges, n, penalty, p, order[..|order| - 1]), order[|order| - 1])
  }

  ghost function Passes(edges: seq<Edge>, n: nat, penalty: real, p: Progress, orders: seq<seq<Acct>>): (r: Progress)
    requires TableOk(n, p.t) && forall i :: 0 <= i < |orders| ==> IsOrder(orders[i], p.t.part.Keys)
    ensures TableOk(n, r.t) && r.t.part.Keys == p.t.part.Keys
  {
    if orders == [] then p else
    var before := Passes(edges, n, penalty, p, orders[..|orders| - 1]);
    var last := orders[|orders| - 1];
    assert IsOrder(last, before.t.part.Keys);
    Visits(edges, n, penalty, before, last)
  }

  // ----------------------------------------------------------------- what a run keeps

  ghost function Residents(part: Placement, k: Shard): set<Acct> { set v | v in part && part[v] == k }

  /** The vertex counts are right. */
  ghost predicate CountsAreRight(n: nat, t: Table) {
    TableOk(n, t) && forall k :: 0 <= k < n ==> t.num[k] == |Residents(t.part, k)|
  }

  ghost predicate WeightsAreRight(edges: seq<Edge>, n: nat, t: Table) {
    TableOk(n, t) && forall k :: 0 <= k < n ==> t.weight[k] == Weight(edges, t.part, n, k) as real
  }

  ghost predicate NoSelfLoops(edges: seq<Edge>) {
    forall e :: e in edges ==> e.u != e.w
  }

  /** The bookkeeping of a run that started from start. */
  ghost predicate Kept(edges: seq<Edge>, n: nat, start: Table, p: Progress) {
    && CountsAreRight(n, p.t) && p.t.part.Keys == start.part.Keys
    && |start.num| == n && (forall k :: 0 <= k < n && start.num[k] > 0 ==> p.t.num[k] > 0)
    && (forall v :: v in p.times ==> p.times[v] <= UPDATE_THRESHOLD)
    && (forall v :: v in p.moved ==> v in p.t.part && p.moved[v] == p.t.part[v])
    && (forall v :: v in p.t.part && v !in p.moved ==> p.t.part[v] == start.part[v])
    && (NoSelfLoops(edges) ==> WeightsAreRight(edges, n, p.t))
  }

  lemma CountsAfterMove(edges: seq<Edge>, n: nat, t: Table, v: Acct, to: Shard)
    requires CountsAreRight(n, t) && v in t.part && to < n && to != t.part[v]
    ensures CountsAreRight(n, Moved(edges, n, t, v, to))
  {
    var t' := Moved(edges, n, t, v, to);
    forall k | 0 <= k < n ensures t'.num[k] == |Residents(t'.part, k)| {
      if k == to {
        assert Residents(t'.part, k) == Residents(t.part, k) + {v};
      } else if k == t.part[v] {
        assert Residents(t'.part, k) == Residents(t.part, k) - {v};
        assert v in Residents(t.part, k);
      } else {
        assert Residents(t'.part, k) == Residents(t.part, k);
      }
    }
  }

  lemma CountsAfterArrival(n: nat, t: Table, v: Acct, loc: Shard)
    requires CountsAreRight(n, t) && v !in t.part && loc < n
    ensures CountsAreRight(n, t.(part := t.part[v := loc], num := t.num[loc := t.num[loc] + 1]))
  {
    var part := t.part[v := loc];
    forall k | 0 <= k < n ensures t.num[loc := t.num[loc] + 1][k] == |Residents(part, k)| {
      if k == loc {
        assert Residents(part, k) == Residents(t.part, k) + {v};
      } else {
        assert Residents(part, k) == Residents(t.part, k);
      }
    }
  }

  /**
   * The incremental update of one move agrees with a recomputation exactly when the vertex that moves has no
   * self-loop.
   */
  lemma IncrementalIsExactIff(edges: seq<Edge>, n: nat, t: Table, v: Acct, to: Shard)
    requires WeightsAreRight(edges, n, t) && v in t.part && to < n && to != t.part[v]
    ensures WeightsAreRight(edges, n, Moved(edges, n, t, v, to)) <==> (forall e :: e in edges ==> !(e.u == v && e.w == v))
  {
    var t' := Moved(edges, n, t, v, to);
    forall k | 0 <= k < n
      ensures t'.weight[k] == (Weight(edges, t'.part, n, k) - (if k == to || k == t.part[v] then SelfLoops(edges, v) else 0)) as real
    {
      CorrectionIs(edges, t.part, n, v, to, k);
    }
    SelfLoopsAreCounted(edges, v);
    assert t'.weight[to] == (Weight(edges, t'.part, n, to) - SelfLoops(edges, v)) as real;
  }

  lemma {:induction false} SelfLoopsAreCounted(edges: seq<Edge>, v: Acct)
    ensures SelfLoops(edges, v) >= 0
    ensures SelfLoops(edges, v) == 0 <==> forall e :: e in edges ==> !(e.u == v && e.w == v)
  {
    if edges != [] {
      var most, last := edges[..|edges| - 1], edges[|edges| - 1];
      SelfLoopsAreCounted(most, v);
      assert edges == most + [last];
    }
  }

  lemma VisitKeeps(edges: seq<Edge>, n: nat, penalty: real, start: Table, p: Progress, v: Acct)
    requires Kept(edges, n, start, p) && v in p.t.part
    ensures Kept(edges, n, start, Visit(edges, n, penalty, p, v))
  {
    var p' := Visit(edges, n, penalty, p, v);
    if p' != p {
      var to := Target(edges, n, penalty, p.t, v);
      CountsAfterMove(edges, n, p.t, v, to);
      if NoSelfLoops(edges) { IncrementalIsExactIff(edges, n, p.t, v, to); }
      forall k | 0 <= k < n && start.num[k] > 0 ensures p'.t.num[k] > 0 {
      }
    }
  }

  /** A vertex moves only to a shard that holds one of its neighbours, by a best score, and never out of a shard it is alone in. */
  lemma MovesAreGood(edges: seq<Edge>, n: nat, penalty: real, p: Progress, v: Acct)
    requires TableOk(n, p.t) && v in p.t.part
    ensures var p' := Visit(edges, n, penalty, p, v);
            var adjacent := Neighbours(edges, v);
            p' != p ==>
              && (forall x :: x in p.t.part && x != v ==> p'.t.part[x] == p.t.part[x])
              && (exists u :: u in adjacent && LocOf(p.t.part, u, n) == p'.t.part[v])
              && p'.t.part[v] != p.t.part[v] && p.t.num[p.t.part[v]] > 1
              && (forall u :: u in adjacent && LocOf(p.t.part, u, n) != p.t.part[v] ==>
                    !Above(ShardScore(adjacent, p.t.part, n, penalty, p.t.weight, LocOf(p.t.part, u, n)),
                           ShardScore(adjacent, p.t.part, n, penalty, p.t.weight, p'.t.part[v])))
  {
    var adjacent := Neighbours(edges, v);
    BestIsBest(adjacent, |adjacent|, p.t.part, n, penalty, p.t.weight, p.t.part[v]);
  }

  /** The i-th neighbour is in another shard, with a score above the floor. */
  ghost predicate IsAttracted(edges: seq<Edge>, n: nat, penalty: real, t: Table, v: Acct, i: nat)
    requires TableOk(n, t) && v in t.part && i < |Neighbours(edges, v)|
  {
    var adjacent := Neighbours(edges, v);
    var k := LocOf(t.part, adjacent[i], n);
    k != t.part[v] && Above(ShardScore(adjacent, t.part, n, penalty, t.weight, k), LEAST_SCORE)
  }

  lemma TargetExactlyWhen(edges: seq<Edge>, n: nat, penalty: real, t: Table, v: Acct)
    requires TableOk(n, t) && v in t.part
    ensures Target(edges, n, penalty, t, v) != t.part[v] <==>
            exists i :: 0 <= i < |Neighbours(edges, v)| && IsAttracted(edges, n, penalty, t, v, i)
  {
    var adjacent, now := Neighbours(edges, v), t.part[v];
    var c := Best(adjacent, |adjacent|, t.part, n, penalty, t.weight, now);
    BestIsBest(adjacent, |adjacent|, t.part, n, penalty, t.weight, now);
    if c.shard != now {
      var i :| 0 <= i < |adjacent| && LocOf(t.part, adjacent[i], n) == c.shard;
      assert IsAttracted(edges, n, penalty, t, v, i);
    }
  }

  /** A visit that changes anything is a move to the target, counted and recorded. */
  lemma VisitMoves(edges: seq<Edge>, n: nat, penalty: real, p: Progress, v: Acct)
    requires TableOk(n, p.t) && v in p.t.part
    ensures var p', now, to := Visit(edges, n, penalty, p, v), p.t.part[v], Target(edges, n, penalty, p.t, v);
            && (p' != p <==> Times(p, v) < UPDATE_THRESHOLD && p.t.num[now] > 1 && to != now)
            && (p' != p ==>
                  && p'.t.part == p.t.part[v := to] && p'.times == p.times[v := Times(p, v) + 1] && p'.moved == p.moved[v := to]
                  && p'.t.num[now] == p.t.num[now] - 1 && p'.t.num[to] == p.t.num[to] + 1)
  {
    hide Target, Corrected;
    assert p.t.part[v := p.t.part[v]] == p.t.part;
  }

  /**
   * A visited vertex moves if and only if it has moves left, would not leave its shard empty, and has a neighbour in
   * another shard whose score is above the floor; the move is counted and recorded.
   */
  lemma MovesExactlyWhen(edges: seq<Edge>, n: nat, penalty: real, p: Progress, v: Acct)
    requires TableOk(n, p.t) && v in p.t.part
    ensures var p', now := Visit(edges, n, penalty, p, v), p.t.part[v];
            && (p' != p <==>
                  Times(p, v) < UPDATE_THRESHOLD && p.t.num[now] > 1 &&
                  exists i :: 0 <= i < |Neighbours(edges, v)| && IsAttracted(edges, n, penalty, p.t, v, i))
            && (p' != p ==>
                  && p'.times == p.times[v := Times(p, v) + 1] && p'.moved == p.moved[v := p'.t.part[v]]
                  && p'.t.num[now] == p.t.num[now] - 1 && p'.t.num[p'.t.part[v]] == p.t.num[p'.t.part[v]] + 1)
  {
    hide Visit, Target, IsAttracted;
    VisitMoves(edges, n, penalty, p, v);
    TargetExactlyWhen(edges, n, penalty, p.t, v);
  }

  /** A vertex never goes to a shard when a strictly lighter one, other than its own, holds as many of its neighbours. */
  lemma MovesToLightest(edges: seq<Edge>, n: nat, penalty: real, p: Progress, v: Acct, k: Shard)
    requires TableOk(n, p.t) && v in p.t.part && penalty > 0.0 && MinOf(p.t.weight) > 0.0
    requires k < n && k != p.t.part[v]
    ensures var p', adjacent := Visit(edges, n, penalty, p, v), Neighbours(edges, v);
            p' != p && CountAt(adjacent, p.t.part, n, k) == CountAt(adjacent, p.t.part, n, p'.t.part[v]) ==>
              p.t.weight[k] >= p.t.weight[p'.t.part[v]]
  {
    var p', adjacent := Visit(edges, n, penalty, p, v), Neighbours(edges, v);
    MovesAreGood(edges, n, penalty, p, v);
    if p' != p && CountAt(adjacent, p.t.part, n, k) == CountAt(adjacent, p.t.part, n, p'.t.part[v]) {
      var u :| u in adjacent && LocOf(p.t.part, u, n) == p'.t.part[v];
      var j :| 0 <= j < |adjacent| && adjacent[j] == u;
      var i :| 0 <= i < |adjacent| && LocOf(p.t.part, adjacent[i], n) == k;
      assert adjacent[i] in adjacent;
      if p.t.weight[k] < p.t.weight[p'.t.part[v]] {
        HeavierScoresLower(CountAt(adjacent, p.t.part, n, k), |adjacent|, penalty, p.t.weight[p'.t.part[v]], p.t.weight[k], MinOf(p.t.weight));
        assert false;
      }
    }
  }

  lemma {:induction false} VisitsKeep(edges: seq<Edge>, n: nat, penalty: real, start: Table, p: Progress, order: seq<Acct>)
    requires Kept(edges, n, start, p) && forall v :: v in order ==> v in p.t.part
    ensures Kept(edges, n, start, Visits(edges, n, penalty, p, order))
  {
    if order != [] {
      VisitsKeep(edges, n, penalty, start, p, order[..|order| - 1]);
      VisitKeeps(edges, n, penalty, start, Visits(edges, n, penalty, p, order[..|order| - 1]), order[|order| - 1]);
    }
  }

  ghost function Begin(t: Table): Progress { Progress(t, map[], map[]) }

  /** All of it holds after any number of passes in any orders. */
  lemma {:induction false} PassesKeep(edges: seq<Edge>, n: nat, penalty: real, start: Table, orders: seq<seq<Acct>>)
    requires CountsAreRight(n, start) && WeightsAreRight(edges, n, start)
    requires forall i :: 0 <= i < |orders| ==> IsOrder(orders[i], start.part.Keys)
    ensures Kept(edges, n, start, Passes(edges, n, penalty, Begin(start), orders))
  {
    if orders != [] {
      var most, last := orders[..|orders| - 1], orders[|orders| - 1];
      PassesKeep(edges, n, penalty, start, most);
      VisitsKeep(edges, n, penalty, start, Passes(edges, n, penalty, Begin(start), most), last);
    }
  }

  // -------------------------------------------------------------- the result of a run

  /** What is returned: the moved vertices that did not come back. */
  function Pruned(moved: map<Acct, Shard>, original: Placement): map<Acct, Shard> {
    map a | a in moved && !(a in original && original[a] == moved[a]) :: moved[a]
  }

  /** The returned map is exactly the difference between the final and the original placement. */
  lemma ResultIsDifference(edges: seq<Edge>, n: nat, penalty: real, start: Table, orders: seq<seq<Acct>>)
    requires CountsAreRight(n, start) && WeightsAreRight(edges, n, start)
    requires forall i :: 0 <= i < |orders| ==> IsOrder(orders[i], start.part.Keys)
    ensures var p := Passes(edges, n, penalty, Begin(start), orders);
            Pruned(p.moved, start.part) == map a | a in p.t.part && p.t.part[a] != start.part[a] :: p.t.part[a]
  {
    PassesKeep(edges, n, penalty, start, orders);
  }

  // -------------------------------------------------------------- a shard without edges

  /** As long as some shard has no edge at all, every score is minus infinity and no vertex moves. */
  lemma NothingMovesPast(edges: seq<Edge>, n: nat, penalty: real, p: Progress, v: Acct, idle: Shard)
    requires penalty > 0.0 && WeightsAreRight(edges, n, p.t) && v in p.t.part
    requires idle < n && Weight(edges, p.t.part, n, idle) == 0
    ensures Visit(edges, n, penalty, p, v) == p
  {
    var adjacent := Neighbours(edges, v);
    var now := p.t.part[v];
    forall k | 0 <= k < n ensures p.t.weight[k] >= 0.0 {
      SeqSumNonNegative(edges, TouchCount(p.t.part, n, k));
    }
    assert MinOf(p.t.weight) == 0.0;
    BestIsBest(adjacent, |adjacent|, p.t.part, n, penalty, p.t.weight, now);
  }

  lemma {:induction false} IdleVisits(edges: seq<Edge>, n: nat, penalty: real, p: Progress, order: seq<Acct>, idle: Shard)
    requires penalty > 0.0 && WeightsAreRight(edges, n, p.t) && (forall v :: v in order ==> v in p.t.part)
    requires idle < n && Weight(edges, p.t.part, n, idle) == 0
    ensures Visits(edges, n, penalty, p, order) == p
  {
    if order != [] {
      IdleVisits(edges, n, penalty, p, order[..|order| - 1], idle);
      NothingMovesPast(edges, n, penalty, p, order[|order| - 1], idle);
    }
  }

  /** A repartition with an idle shard is the identity: nothing ever moves, with or without self-loops. */
  lemma {:induction false} IdleShardStopsAll(edges: seq<Edge>, n: nat, penalty: real, start: Table, orders: seq<seq<Acct>>, idle: Shard)
    requires penalty > 0.0 && WeightsAreRight(edges, n, start)
    requires forall i :: 0 <= i < |orders| ==> IsOrder(orders[i], start.part.Keys)
    requires idle < n && Weight(edges, start.part, n, idle) == 0
    ensures Passes(edges, n, penalty, Begin(start), orders) == Begin(start)
  {
    if orders != [] {
      var last := orders[|orders| - 1];
      IdleShardStopsAll(edges, n, penalty, start, orders[..|orders| - 1], idle);
      IdleVisits(edges, n, penalty, Begin(start), last, idle);
    }
  }
}
