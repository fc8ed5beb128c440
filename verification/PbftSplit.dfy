/** When agreement can fail: the runs in which a faulty leader splits the correct nodes, and the exact conditions. */
module PbftSplit {
  import opened Prelude
  import opened Accounts
  import opened ViewSeqs
  import opened MsgPools
  import opened PbftMeta
  import opened PbftSystem
  import opened PbftAgreement
  import opened PbftRuns
  import opened Chain

  function BlockOf(number: nat): Block { Block(Header(ZeroHash, number, TxContent([]))) }
  function Proposal(d: Digest, b: Block): Preprepare { Preprepare(Round(0), d, b, INITIAL_LEADER) }

  // -------------------------------------------------------------------- two groups in one round

  /** The votes of s are those of the faulty nodes and a group, or of everybody when the digests are the same. */
  predicate VotersFor(cfg: Config, a: set<NodeId>, b: set<NodeId>, p: Preprepare, q: Preprepare, s: set<NodeId>) {
    && |s| >= 2 * FaultBound(cfg.n) + 1
    && (s == cfg.faulty + a || (p.digest == q.digest && s == cfg.faulty + a + b))
  }

  lemma AllVotedToo(votes: set<Vote>, a: set<NodeId>, b: set<NodeId>, faulty: set<NodeId>, p: Preprepare, q: Preprepare, s: set<NodeId>)
    requires AllVoted(votes, p, faulty + a) && AllVoted(votes, q, b) && p.at == q.at
    requires s == faulty + a || (p.digest == q.digest && s == faulty + a + b)
    ensures AllVoted(votes, p, s)
  {
    forall x | x in s ensures VoteFor(p, x) in votes {
      if x !in faulty + a { assert VoteFor(q, x) in votes; }
    }
  }

  lemma Ready0(cfg: Config, g: set<NodeId>)
    requires IsConfig(cfg) && forall x :: x in g ==> 0 <= x < cfg.n
    ensures forall i :: i in g ==> Ready(cfg, Start(cfg), i, Round(0))
  {
  }

  /** Two proposals of a faulty leader, and every faulty node votes for both. */
  lemma SetStage(cfg: Config, p: Preprepare, q: Preprepare, test: Test) returns (net: Net)
    requires IsConfig(cfg) && 0 in cfg.faulty && Lenient(test) && p.node == q.node == INITIAL_LEADER
    ensures Reached(cfg, net, test) && Evolved(Start(cfg), net, {})
    ensures p in net.preprepares && AllVoted(net.prepares, p, cfg.faulty) && AllVoted(net.commits, p, cfg.faulty)
    ensures q in net.preprepares && AllVoted(net.prepares, q, cfg.faulty) && AllVoted(net.commits, q, cfg.faulty)
  {
    StartReached(cfg, test);
    hide Reached, Lenient, Start;
    var n1 := ForgeProposal(cfg, Start(cfg), p, test);
    var n2 := ForgeProposal(cfg, n1, q, test);
    var n3 := ForgeVotes(cfg, n2, cfg.faulty, p, test);
    net := ForgeVotes(cfg, n3, cfg.faulty, q, test);
  }

  lemma FreshlyReady(cfg: Config, net: Net, g: set<NodeId>)
    requires IsConfig(cfg) && Evolved(Start(cfg), net, {}) && g <= CorrectNodes(cfg)
    ensures forall i :: i in g ==> Ready(cfg, net, i, Round(0)) && Member(cfg, i)
  {
    Ready0(cfg, g);
    forall i | i in g ensures Ready(cfg, net, i, Round(0)) {
      assert Ready(cfg, Start(cfg), i, Round(0));
    }
  }

  /** Each group has prepared its own proposal. */
  lemma BothPrepare(cfg: Config, a: set<NodeId>, b: set<NodeId>, p: Preprepare, q: Preprepare, test: Test) returns (net: Net)
    requires IsConfig(cfg) && 0 in cfg.faulty && Lenient(test) && a !! b && a + b <= CorrectNodes(cfg)
    requires p.node == q.node == INITIAL_LEADER && p.at == q.at == Round(0)
    ensures Reached(cfg, net, test)
    ensures forall i :: i in a ==> At(cfg, net, i, StagePrepare, p) && Member(cfg, i)
    ensures forall i :: i in b ==> At(cfg, net, i, StagePrepare, q) && Member(cfg, i)
    ensures AllVoted(net.prepares, p, cfg.faulty + a) && AllVoted(net.prepares, q, cfg.faulty + b)
    ensures AllVoted(net.commits, p, cfg.faulty) && AllVoted(net.commits, q, cfg.faulty)
  {
    var n0 := SetStage(cfg, p, q, test);
    FreshlyReady(cfg, n0, a + b);
    hide Reached, Lenient, Start, CorrectNodes;
    var n1 := PrepareGroup(cfg, n0, a, p, test);
    forall i | i in b ensures Ready(cfg, n1, i, Round(0)) { assert Ready(cfg, n0, i, Round(0)); }
    net := PrepareGroup(cfg, n1, b, q, test);
    forall i | i in a ensures At(cfg, net, i, StagePrepare, p) { assert At(cfg, n1, i, StagePrepare, p); }
  }

  /** Each group is in the commit stage for its own proposal, and all votes there are for both have been sent. */
  lemma BothCommit(cfg: Config, a: set<NodeId>, b: set<NodeId>, p: Preprepare, q: Preprepare, sa: set<NodeId>, sb: set<NodeId>, test: Test)
      returns (net: Net)
    requires IsConfig(cfg) && 0 in cfg.faulty && Lenient(test) && a !! b && a + b <= CorrectNodes(cfg)
    requires p.node == q.node == INITIAL_LEADER && p.at == q.at == Round(0)
    requires VotersFor(cfg, a, b, p, q, sa) && VotersFor(cfg, b, a, q, p, sb)
    ensures Reached(cfg, net, test)
    ensures forall i :: i in a ==> At(cfg, net, i, StageCommit, p) && Member(cfg, i)
    ensures forall i :: i in b ==> At(cfg, net, i, StageCommit, q) && Member(cfg, i)
    ensures AllVoted(net.commits, p, sa) && AllVoted(net.commits, q, sb)
  {
    var n2 := BothPrepare(cfg, a, b, p, q, test);
    hide Reached, Lenient, CorrectNodes;
    AllVotedToo(n2.prepares, a, b, cfg.faulty, p, q, sa);
    AllVotedToo(n2.prepares, b, a, cfg.faulty, q, p, sb);
    var n3 := CommitGroup(cfg, n2, a, p, sa, test);
    forall i | i in b ensures At(cfg, n3, i, StagePrepare, q) { assert At(cfg, n2, i, StagePrepare, q); }
    assert AllVoted(n3.prepares, q, sb);
    net := CommitGroup(cfg, n3, b, q, sb, test);
    AllVotedToo(net.commits, a, b, cfg.faulty, p, q, sa);
    AllVotedToo(net.commits, b, a, cfg.faulty, q, p, sb);
    forall i | i in a ensures At(cfg, net, i, StageCommit, p) { assert At(cfg, n3, i, StageCommit, p); }
  }

  /** Each group decides on a proposal of its own. */
  lemma SplitDecides(cfg: Config, a: set<NodeId>, b: set<NodeId>, p: Preprepare, q: Preprepare, sa: set<NodeId>, sb: set<NodeId>,
                     x: nat, y: nat, test: Test) returns (es: seq<Event>)
    requires IsConfig(cfg) && 0 in cfg.faulty && Lenient(test) && a !! b && a + b <= CorrectNodes(cfg) && x in a && y in b
    requires p.node == q.node == INITIAL_LEADER && p.at == q.at == Round(0)
    requires VotersFor(cfg, a, b, p, q, sa) && VotersFor(cfg, b, a, q, p, sb)
    ensures Throughout(cfg, es, test) && DecidedIn(cfg, es, x, p) && DecidedIn(cfg, es, y, q)
  {
    var n4 := BothCommit(cfg, a, b, p, q, sa, sb, test);
    assert At(cfg, n4, x, StageCommit, p) && At(cfg, n4, y, StageCommit, q);
    hide Lenient, Start, Extended;
    var n5 := DecideOne(cfg, n4, x, p, sa, test);
    assert At(cfg, n5, y, StageCommit, q);
    var net := DecideOne(cfg, n5, y, q, sb, test);
    es :| Run(cfg, es) == Some(net) && Throughout(cfg, es, test);
    assert p in net.nodes[x].decided && q in net.nodes[y].decided;
  }

  // ------------------------------------------------------------------------------ the conditions

  ghost predicate DecidedIn(cfg: Config, es: seq<Event>, i: nat, pp: Preprepare) {
    match Run(cfg, es)
    case None => false
    case Some(net) => Correct(cfg, net, i) && pp in net.nodes[i].decided
  }

  /** In every run, any two correct nodes that have decided in a round have decided on the same digest. */
  ghost predicate AlwaysAgrees(cfg: Config, test: Test) {
    forall es: seq<Event>, i: nat, j: nat, p: Preprepare, q: Preprepare ::
      Throughout(cfg, es, test) && DecidedIn(cfg, es, i, p) && DecidedIn(cfg, es, j, q) && p.at == q.at ==> p.digest == q.digest
  }

  /** In every run, any two correct nodes that have decided in a round have decided on the same block. */
  ghost predicate BlocksAlwaysAgree(cfg: Config, test: Test) {
    forall es: seq<Event>, i: nat, j: nat, p: Preprepare, q: Preprepare ::
      Throughout(cfg, es, test) && DecidedIn(cfg, es, i, p) && DecidedIn(cfg, es, j, q) && p.at == q.at ==> p.block == q.block
  }

  lemma {:induction false} SubsetOfSize(s: set<NodeId>, k: nat) returns (t: set<NodeId>)
    requires k <= |s|
    ensures t <= s && |t| == k
    decreases k
  {
    if k == 0 {
      t := {};
    } else {
      var x := SomeMember(s);
      var rest := SubsetOfSize(s - {x}, k - 1);
      t := rest + {x};
    }
  }

  /** The correct nodes in two groups, each of which is a quorum together with the faulty ones. */
  lemma SplitExists(cfg: Config) returns (a: set<NodeId>, b: set<NodeId>)
    requires IsConfig(cfg) && !Safe(cfg) && cfg.n >= |cfg.faulty| + 2
    ensures a !! b && a + b <= CorrectNodes(cfg) && a != {} && b != {}
    ensures |cfg.faulty + a| >= 2 * FaultBound(cfg.n) + 1 && |cfg.faulty + b| >= 2 * FaultBound(cfg.n) + 1
  {
    CorrectCount(cfg);
    var c := CorrectNodes(cfg);
    var lacking := 2 * FaultBound(cfg.n) + 1 - |cfg.faulty|;
    a := SubsetOfSize(c, if lacking <= 1 then 1 else lacking);
    b := c - a;
    assert |b| == |c| - |a|;
    assert |cfg.faulty + a| == |cfg.faulty| + |a| && |cfg.faulty + b| == |cfg.faulty| + |b|;
  }

  lemma FewCorrect(cfg: Config, es: seq<Event>, i: nat, j: nat, p: Preprepare, q: Preprepare)
    requires IsConfig(cfg) && cfg.n < |cfg.faulty| + 2 && Throughout(cfg, es, Forward(cfg))
    requires DecidedIn(cfg, es, i, p) && DecidedIn(cfg, es, j, q)
    ensures i == j
  {
    RunKeepsInv(cfg, es);
    assert i < cfg.n && j < cfg.n;
    OneAtMost(cfg, i, j);
  }

  lemma OneAtMost(cfg: Config, i: nat, j: nat)
    requires IsConfig(cfg) && cfg.n < |cfg.faulty| + 2 && i in CorrectNodes(cfg) && j in CorrectNodes(cfg)
    ensures i == j
  {
    CorrectCount(cfg);
    hide CorrectNodes;
    var pair: set<NodeId> := {i, j};
    SubsetSize(pair, CorrectNodes(cfg));
    assert |pair| == if i == j then 1 else 2;
  }

  /** One node decides once in a round: the rounds of its decisions only increase. */
  ghost predicate Increasing(a: Node) {
    && (forall k :: 0 <= k < |a.decided| ==> Below(a.decided[k].at, a.m.cur))
    && (forall k, l :: 0 <= k < l < |a.decided| ==> Below(a.decided[k].at, a.decided[l].at))
  }

  lemma IncreasingOn(e: Event, a: Node, b: Node)
    requires Increasing(a) && Proceeds(e, a, b)
    ensures Increasing(b)
  {
    forall k | 0 <= k < |a.decided| ensures Below(a.decided[k].at, b.m.cur) {
      CompareIsTotalOrder(a.decided[k].at, a.m.cur, b.m.cur);
    }
  }

  lemma {:induction false} RunIncreasing(cfg: Config, es: seq<Event>, i: nat)
    requires IsConfig(cfg) && Run(cfg, es).Some? && Throughout(cfg, es, Forward(cfg)) && i < cfg.n && i !in cfg.faulty
    ensures i < |Run(cfg, es).value.nodes| && Increasing(Run(cfg, es).value.nodes[i])
  {
    if es != [] {
      RunIncreasing(cfg, es[..|es| - 1], i);
      RunKeepsInv(cfg, es[..|es| - 1]);
      ProceedsStep(cfg, Run(cfg, es[..|es| - 1]).value, es[|es| - 1], i);
      IncreasingOn(es[|es| - 1], Run(cfg, es[..|es| - 1]).value.nodes[i], Run(cfg, es).value.nodes[i]);
    }
  }

  lemma DecidesOnce(cfg: Config, es: seq<Event>, i: nat, p: Preprepare, q: Preprepare)
    requires IsConfig(cfg) && Throughout(cfg, es, Forward(cfg)) && DecidedIn(cfg, es, i, p) && DecidedIn(cfg, es, i, q) && p.at == q.at
    ensures p == q
  {
    hide NodeOk, LeaderOk, Throughout, Run;
    RunKeepsInv(cfg, es);
    RunIncreasing(cfg, es, i);
    IncreasingOnce(Run(cfg, es).value.nodes[i], p, q);
  }

  lemma IncreasingOnce(a: Node, p: Preprepare, q: Preprepare)
    requires Increasing(a) && p in a.decided && q in a.decided && p.at == q.at
    ensures p == q
  {
    var k :| 0 <= k < |a.decided| && a.decided[k] == p;
    var l :| 0 <= l < |a.decided| && a.decided[l] == q;
    assert !Below(p.at, q.at) && !Below(q.at, p.at);
  }

  lemma AgreementWhen(cfg: Config)
    requires IsConfig(cfg) && (Safe(cfg) || cfg.n < |cfg.faulty| + 2)
    ensures AlwaysAgrees(cfg, Forward(cfg))
  {
    forall es: seq<Event>, i: nat, j: nat, p: Preprepare, q: Preprepare
      | Throughout(cfg, es, Forward(cfg)) && DecidedIn(cfg, es, i, p) && DecidedIn(cfg, es, j, q) && p.at == q.at
      ensures p.digest == q.digest
    {
      if Safe(cfg) {
        Agreement(cfg, es, Run(cfg, es).value, i, j, p, q);
      } else {
        FewCorrect(cfg, es, i, j, p, q);
        DecidesOnce(cfg, es, i, p, q);
      }
    }
  }

  lemma ForwardIsLenient(cfg: Config)
    ensures Lenient(Forward(cfg))
  {
  }

  lemma DisagreementOtherwise(cfg: Config) returns (es: seq<Event>, x: nat, y: nat, p: Preprepare, q: Preprepare)
    requires IsConfig(cfg) && !Safe(cfg) && cfg.n >= |cfg.faulty| + 2
    ensures Throughout(cfg, es, Forward(cfg)) && DecidedIn(cfg, es, x, p) && DecidedIn(cfg, es, y, q)
    ensures p.at == q.at && p.digest != q.digest
  {
    var a, b := SplitExists(cfg);
    x := SomeMember(a);
    y := SomeMember(b);
    p, q := Proposal(1, BlockOf(2)), Proposal(2, BlockOf(2));
    ForwardIsLenient(cfg);
    es := SplitDecides(cfg, a, b, p, q, cfg.faulty + a, cfg.faulty + b, x, y, Forward(cfg));
  }

  /**
   * Agreement on digests holds exactly when quorums meet outside the faulty nodes, or the leader is correct, or fewer
   * than two nodes are correct. With n = 3f + 2 or 3f + 3 the quorum of 2f + 1 is too small for f faulty nodes.
   */
  lemma AgreementExactlyWhen(cfg: Config)
    requires IsConfig(cfg)
    ensures AlwaysAgrees(cfg, Forward(cfg)) <==> (Safe(cfg) || cfg.n < |cfg.faulty| + 2)
  {
    if Safe(cfg) || cfg.n < |cfg.faulty| + 2 {
      AgreementWhen(cfg);
    } else {
      var es, x, y, p, q := DisagreementOtherwise(cfg);
    }
  }

  lemma BlocksAgreeWhen(cfg: Config)
    requires IsConfig(cfg) && (0 !in cfg.faulty || cfg.n < |cfg.faulty| + 2)
    ensures BlocksAlwaysAgree(cfg, Forward(cfg))
  {
    forall es: seq<Event>, i: nat, j: nat, p: Preprepare, q: Preprepare
      | Throughout(cfg, es, Forward(cfg)) && DecidedIn(cfg, es, i, p) && DecidedIn(cfg, es, j, q) && p.at == q.at
      ensures p.block == q.block
    {
      if 0 !in cfg.faulty {
        SameProposal(cfg, es, Run(cfg, es).value, i, j, p, q);
      } else {
        FewCorrect(cfg, es, i, j, p, q);
        DecidesOnce(cfg, es, i, p, q);
      }
    }
  }

  /** A faulty leader sends two blocks under one digest: every vote counts for both. */
  lemma TwoBlocksOneDigest(cfg: Config) returns (es: seq<Event>, x: nat, y: nat, p: Preprepare, q: Preprepare)
    requires IsConfig(cfg) && 0 in cfg.faulty && cfg.n >= |cfg.faulty| + 2
    ensures Throughout(cfg, es, Forward(cfg)) && DecidedIn(cfg, es, x, p) && DecidedIn(cfg, es, y, q)
    ensures p.at == q.at && p.digest == q.digest && p.block != q.block
  {
    CorrectCount(cfg);
    var c := CorrectNodes(cfg);
    x := SomeMember(c);
    var a: set<NodeId> := {x};
    var b := c - a;
    assert |b| == |c| - 1;
    y := SomeMember(b);
    p, q := Proposal(1, BlockOf(2)), Proposal(1, BlockOf(3));
    assert cfg.faulty + a + b == cfg.faulty + c && cfg.faulty + b + a == cfg.faulty + c && a + b == c;
    ForwardIsLenient(cfg);
    es := SplitDecides(cfg, a, b, p, q, cfg.faulty + c, cfg.faulty + c, x, y, Forward(cfg));
  }

  /**
   * Blocks are another matter: nobody compares a digest with the block it comes with. Correct nodes agree on blocks
   * exactly when the leader is correct or fewer than two nodes are.
   */
  lemma BlocksAgreeExactlyWhen(cfg: Config)
    requires IsConfig(cfg)
    ensures BlocksAlwaysAgree(cfg, Forward(cfg)) <==> (0 !in cfg.faulty || cfg.n < |cfg.faulty| + 2)
  {
    if 0 !in cfg.faulty || cfg.n < |cfg.faulty| + 2 {
      BlocksAgreeWhen(cfg);
    } else {
      var es, x, y, p, q := TwoBlocksOneDigest(cfg);
    }
  }
}
