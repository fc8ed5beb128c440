/** Building runs: how a group of correct nodes is brought to decide a proposal of the leader. */
module PbftRuns {
  import opened Prelude
  import opened Accounts
  import opened ViewSeqs
  import opened MsgPools
  import opened PbftMeta
  import opened PbftSystem
  import opened PbftAgreement
  import opened Chain

  type Test = (Net, Event) -> bool

  /** Some run of events that pass the test leads here. */
  ghost predicate Reached(cfg: Config, net: Net, test: Test) {
    exists es :: Run(cfg, es) == Some(net) && Throughout(cfg, es, test)
  }

  /** The test is about received answers only. */
  ghost predicate Lenient(test: Test) {
    forall net: Net, e: Event :: !e.Receive? ==> test(net, e)
  }

  lemma StartReached(cfg: Config, test: Test)
    ensures Reached(cfg, Start(cfg), test)
  {
    assert Run(cfg, []) == Some(Start(cfg));
  }

  lemma Extend(cfg: Config, net: Net, e: Event, test: Test)
    requires Reached(cfg, net, test) && Enabled(cfg, net, e) && test(net, e)
    ensures Reached(cfg, Next(cfg, net, e), test)
  {
    var es :| Run(cfg, es) == Some(net) && Throughout(cfg, es, test);
    hide Enabled, Next;
    assert (es + [e])[..|es|] == es;
    assert Run(cfg, es + [e]) == Some(Next(cfg, net, e));
    assert Throughout(cfg, es + [e], test);
  }

  lemma Goes(cfg: Config, net: Net, e: Event, test: Test)
    requires Reached(cfg, net, test) && Lenient(test) && Enabled(cfg, net, e) && !e.Receive?
    ensures Reached(cfg, Next(cfg, net, e), test)
  {
    Extend(cfg, net, e, test);
  }

  /** Only the nodes in group have moved, and messages have only been added. */
  ghost predicate Evolved(net: Net, net': Net, group: set<NodeId>) {
    && |net'.nodes| == |net.nodes|
    && (forall i :: 0 <= i < |net.nodes| && i !in group ==> net'.nodes[i] == net.nodes[i])
    && net.preprepares <= net'.preprepares && net.prepares <= net'.prepares && net.commits <= net'.commits
    && net.requests <= net'.requests && net.answers <= net'.answers
  }

  /** Nothing was decided or adopted, and nothing heard was forgotten. */
  ghost predicate Along(a: Node, b: Node) {
    && b.decided == a.decided && b.chain == a.chain && b.m.catchupStarted == a.m.catchupStarted
    && a.heardPrepares <= b.heardPrepares && a.heardCommits <= b.heardCommits && LatestKept(a, b)
  }

  /** The latest round heard of stays in view 0. */
  predicate LatestKept(a: Node, b: Node) { a.m.latest.view == 0 && a.m.cur.view == 0 ==> b.m.latest.view == 0 && b.m.cur.view == 0 }

  function VoteFor(pp: Preprepare, x: NodeId): Vote { Vote(pp.at, pp.digest, x) }

  ghost predicate AllVoted(votes: set<Vote>, pp: Preprepare, s: set<NodeId>) {
    forall x :: x in s ==> VoteFor(pp, x) in votes
  }

  /** At the beginning of a round. */
  predicate Ready(cfg: Config, net: Net, i: NodeId, at: ViewSeq) {
    && 0 <= i < |net.nodes|
    && var m := net.nodes[i].m;
       m.f == FaultBound(cfg.n) && m.leader == INITIAL_LEADER && m.cur == at && m.stage == StagePreprepare && m.proposal.None?
  }

  /** In the round of the proposal, at the given stage. */
  predicate At(cfg: Config, net: Net, i: NodeId, stage: Stage, pp: Preprepare) {
    && 0 <= i < |net.nodes|
    && var m := net.nodes[i].m;
       m.f == FaultBound(cfg.n) && m.leader == INITIAL_LEADER && m.cur == pp.at && m.stage == stage && m.proposal == Some(pp)
  }

  predicate Member(cfg: Config, i: NodeId) { 0 <= i && i !in cfg.faulty }

  // ---------------------------------------------------------------- what the faulty nodes send

  lemma {:induction false} ForgeVotes(cfg: Config, net: Net, s: set<NodeId>, pp: Preprepare, test: Test) returns (net': Net)
    requires cfg.shardNum > 0 && Reached(cfg, net, test) && Lenient(test) && s <= cfg.faulty
    ensures Reached(cfg, net', test) && Evolved(net, net', {})
    ensures AllVoted(net'.prepares, pp, s) && AllVoted(net'.commits, pp, s)
    decreases s
  {
    if s == {} {
      net' := net;
    } else {
      var x := SomeMember(s);
      var mid := ForgeVotes(cfg, net, s - {x}, pp, test);
      Extend(cfg, mid, ForgePrepare(VoteFor(pp, x)), test);
      var more := Next(cfg, mid, ForgePrepare(VoteFor(pp, x)));
      Extend(cfg, more, ForgeCommit(VoteFor(pp, x)), test);
      net' := Next(cfg, more, ForgeCommit(VoteFor(pp, x)));
      hide Reached;
      forall y | y in s ensures VoteFor(pp, y) in net'.prepares && VoteFor(pp, y) in net'.commits {
        assert y == x || y in s - {x};
      }
    }
  }

  lemma ForgeProposal(cfg: Config, net: Net, pp: Preprepare, test: Test) returns (net': Net)
    requires cfg.shardNum > 0 && Reached(cfg, net, test) && Lenient(test) && pp.node in cfg.faulty
    ensures Reached(cfg, net', test) && Evolved(net, net', {}) && pp in net'.preprepares
  {
    Extend(cfg, net, ForgePreprepare(pp), test);
    net' := Next(cfg, net, ForgePreprepare(pp));
  }

  // ------------------------------------------------------------------------ one node's steps

  lemma PrepareOne(cfg: Config, net: Net, i: NodeId, pp: Preprepare, test: Test) returns (net': Net)
    requires cfg.shardNum > 0 && Reached(cfg, net, test) && Lenient(test)
    requires Ready(cfg, net, i, pp.at) && Member(cfg, i) && pp in net.preprepares && pp.node == INITIAL_LEADER
    ensures Reached(cfg, net', test) && Evolved(net, net', {i}) && Along(net.nodes[i], net'.nodes[i])
    ensures At(cfg, net', i, StagePrepare, pp) && VoteFor(pp, i) in net'.prepares
  {
    var e1 := HearPreprepare(i, pp, true);
    Extend(cfg, net, e1, test);
    var n1 := Next(cfg, net, e1);
    var e2 := Curate(i, Some(pp));
    Extend(cfg, n1, e2, test);
    var n2 := Next(cfg, n1, e2);
    Extend(cfg, n2, Step(i), test);
    hide Reached;
    net' := Next(cfg, n2, Step(i));
  }

  lemma {:induction false} HearPrepares(cfg: Config, net: Net, i: NodeId, pp: Preprepare, s: set<NodeId>, test: Test) returns (net': Net)
    requires cfg.shardNum > 0 && Reached(cfg, net, test) && Lenient(test)
    requires At(cfg, net, i, StagePrepare, pp) && Member(cfg, i) && AllVoted(net.prepares, pp, s)
    ensures Reached(cfg, net', test) && Evolved(net, net', {i}) && Along(net.nodes[i], net'.nodes[i])
    ensures At(cfg, net', i, StagePrepare, pp)
    ensures AllVoted(net'.nodes[i].m.prepares, pp, s) && AllVoted(net'.nodes[i].heardPrepares, pp, s)
    decreases s
  {
    if s == {} {
      net' := net;
    } else {
      var x := SomeMember(s);
      var mid := HearPrepares(cfg, net, i, pp, s - {x}, test);
      Extend(cfg, mid, HearPrepare(i, VoteFor(pp, x)), test);
      hide Reached;
      net' := Next(cfg, mid, HearPrepare(i, VoteFor(pp, x)));
      forall y | y in s ensures VoteFor(pp, y) in net'.nodes[i].m.prepares && VoteFor(pp, y) in net'.nodes[i].heardPrepares {
        assert y == x || y in s - {x};
      }
    }
  }

  lemma {:induction false} HearCommits(cfg: Config, net: Net, i: NodeId, pp: Preprepare, s: set<NodeId>, test: Test) returns (net': Net)
    requires cfg.shardNum > 0 && Reached(cfg, net, test) && Lenient(test)
    requires At(cfg, net, i, StageCommit, pp) && Member(cfg, i) && AllVoted(net.commits, pp, s)
    ensures Reached(cfg, net', test) && Evolved(net, net', {i}) && Along(net.nodes[i], net'.nodes[i])
    ensures At(cfg, net', i, StageCommit, pp) && AllVoted(net'.nodes[i].m.commits, pp, s)
    decreases s
  {
    if s == {} {
      net' := net;
    } else {
      var x := SomeMember(s);
      var mid := HearCommits(cfg, net, i, pp, s - {x}, test);
      Extend(cfg, mid, HearCommit(i, VoteFor(pp, x)), test);
      hide Reached;
      net' := Next(cfg, mid, HearCommit(i, VoteFor(pp, x)));
      forall y | y in s ensures VoteFor(pp, y) in net'.nodes[i].m.commits {
        assert y == x || y in s - {x};
      }
    }
  }

  lemma VotersCount(votes: set<Vote>, pp: Preprepare, s: set<NodeId>, counted: set<NodeId>)
    requires AllVoted(votes, pp, s) && Senders(votes, pp.at, pp.digest) <= counted
    ensures |s| <= |counted|
  {
    forall x | x in s ensures x in counted {
      assert VoteFor(pp, x) in votes;
    }
    SubsetSize(s, counted);
  }

  lemma CommitOne(cfg: Config, net: Net, i: NodeId, pp: Preprepare, s: set<NodeId>, test: Test) returns (net': Net)
    requires cfg.shardNum > 0 && Reached(cfg, net, test) && Lenient(test)
    requires At(cfg, net, i, StagePrepare, pp) && Member(cfg, i) && AllVoted(net.prepares, pp, s)
    requires |s| >= 2 * FaultBound(cfg.n) + 1
    ensures Reached(cfg, net', test) && Evolved(net, net', {i}) && Along(net.nodes[i], net'.nodes[i])
    ensures At(cfg, net', i, StageCommit, pp) && VoteFor(pp, i) in net'.commits && AllVoted(net'.nodes[i].heardPrepares, pp, s)
  {
    var n1 := HearPrepares(cfg, net, i, pp, s, test);
    Extend(cfg, n1, Curate(i, None), test);
    var n2 := Next(cfg, n1, Curate(i, None));
    VotersCount(n1.nodes[i].m.prepares, pp, s, n2.nodes[i].m.prepareSet);
    Extend(cfg, n2, Step(i), test);
    hide Reached;
    net' := Next(cfg, n2, Step(i));
  }

  /** The decision: the block is added if it executes, and the next round begins. */
  lemma DecideOne(cfg: Config, net: Net, i: NodeId, pp: Preprepare, s: set<NodeId>, test: Test) returns (net': Net)
    requires cfg.shardNum > 0 && Reached(cfg, net, test) && Lenient(test)
    requires At(cfg, net, i, StageCommit, pp) && Member(cfg, i) && AllVoted(net.commits, pp, s)
    requires |s| >= 2 * FaultBound(cfg.n) + 1
    ensures Reached(cfg, net', test) && Evolved(net, net', {i}) && Decided(cfg, net, net', i, pp)
  {
    var n1 := HearCommits(cfg, net, i, pp, s, test);
    Extend(cfg, n1, Curate(i, None), test);
    var n2 := Next(cfg, n1, Curate(i, None));
    VotersCount(n1.nodes[i].m.commits, pp, s, n2.nodes[i].m.commitSet);
    Extend(cfg, n2, Step(i), test);
    hide Reached, Extended;
    net' := Next(cfg, n2, Step(i));
  }

  /** The node has decided the proposal, taken its block if it executes, and is at the beginning of the next round. */
  ghost predicate Decided(cfg: Config, net: Net, net': Net, i: NodeId, pp: Preprepare)
    requires cfg.shardNum > 0
  {
    && 0 <= i < |net.nodes| && Ready(cfg, net', i, Following(pp.at)) && !net'.nodes[i].m.proposed
    && var a, b := net.nodes[i], net'.nodes[i];
       && b.decided == a.decided + [pp] && b.m.catchupStarted == a.m.catchupStarted
       && a.heardPrepares <= b.heardPrepares && a.heardCommits <= b.heardCommits && LatestKept(a, b)
       && (forall v :: v in b.m.prepares ==> Below(pp.at, v.at))
       && b.chain == var c := Extended(a.chain, cfg.shardNum, cfg.shard, pp.block); if c.Some? then c.value else a.chain
  }

  // --------------------------------------------------------------------------- a whole group

  lemma {:induction false} PrepareGroup(cfg: Config, net: Net, g: set<NodeId>, pp: Preprepare, test: Test) returns (net': Net)
    requires cfg.shardNum > 0 && Reached(cfg, net, test) && Lenient(test)
    requires pp in net.preprepares && pp.node == INITIAL_LEADER
    requires forall i :: i in g ==> Member(cfg, i) && Ready(cfg, net, i, pp.at)
    ensures Reached(cfg, net', test) && Evolved(net, net', g)
    ensures forall i :: i in g ==> At(cfg, net', i, StagePrepare, pp) && Along(net.nodes[i], net'.nodes[i])
    ensures AllVoted(net'.prepares, pp, g)
    decreases g
  {
    if g == {} {
      net' := net;
    } else {
      var x := SomeMember(g);
      var mid := PrepareGroup(cfg, net, g - {x}, pp, test);
      net' := PrepareOne(cfg, mid, x, pp, test);
      hide Reached, Lenient;
      forall i | i in g ensures At(cfg, net', i, StagePrepare, pp) && Along(net.nodes[i], net'.nodes[i]) && VoteFor(pp, i) in net'.prepares {
        if i != x { assert i in g - {x} && At(cfg, mid, i, StagePrepare, pp); }
      }
    }
  }

  lemma {:induction false} CommitGroup(cfg: Config, net: Net, g: set<NodeId>, pp: Preprepare, s: set<NodeId>, test: Test) returns (net': Net)
    requires cfg.shardNum > 0 && Reached(cfg, net, test) && Lenient(test)
    requires AllVoted(net.prepares, pp, s) && |s| >= 2 * FaultBound(cfg.n) + 1
    requires forall i :: i in g ==> Member(cfg, i) && At(cfg, net, i, StagePrepare, pp)
    ensures Reached(cfg, net', test) && Evolved(net, net', g)
    ensures forall i :: i in g ==> At(cfg, net', i, StageCommit, pp) && Along(net.nodes[i], net'.nodes[i]) && AllVoted(net'.nodes[i].heardPrepares, pp, s)
    ensures AllVoted(net'.commits, pp, g)
    decreases g
  {
    if g == {} {
      net' := net;
    } else {
      var x := SomeMember(g);
      var mid := CommitGroup(cfg, net, g - {x}, pp, s, test);
      net' := CommitOne(cfg, mid, x, pp, s, test);
      hide Reached, Lenient;
      forall i | i in g
        ensures At(cfg, net', i, StageCommit, pp) && Along(net.nodes[i], net'.nodes[i]) && VoteFor(pp, i) in net'.commits
        ensures AllVoted(net'.nodes[i].heardPrepares, pp, s)
      {
        if i != x { assert i in g - {x} && At(cfg, mid, i, StageCommit, pp); }
      }
    }
  }

  lemma {:induction false} DecideGroup(cfg: Config, net: Net, g: set<NodeId>, pp: Preprepare, s: set<NodeId>, test: Test) returns (net': Net)
    requires cfg.shardNum > 0 && Reached(cfg, net, test) && Lenient(test)
    requires AllVoted(net.commits, pp, s) && |s| >= 2 * FaultBound(cfg.n) + 1
    requires forall i :: i in g ==> Member(cfg, i) && At(cfg, net, i, StageCommit, pp)
    ensures Reached(cfg, net', test) && Evolved(net, net', g)
    ensures forall i :: i in g ==> Decided(cfg, net, net', i, pp)
    decreases g
  {
    if g == {} {
      net' := net;
    } else {
      var x := SomeMember(g);
      var mid := DecideGroup(cfg, net, g - {x}, pp, s, test);
      net' := DecideOne(cfg, mid, x, pp, s, test);
      hide Reached, Lenient, Extended;
      forall i | i in g ensures Decided(cfg, net, net', i, pp) {
        if i != x { assert i in g - {x} && Decided(cfg, net, mid, i, pp); }
      }
    }
  }

  /** A group that is a quorum together with the faulty nodes gets to the commit stage with what the leader has proposed. */
  lemma GroupCommits(cfg: Config, net: Net, g: set<NodeId>, pp: Preprepare, test: Test) returns (net': Net)
    requires cfg.shardNum > 0 && Reached(cfg, net, test) && Lenient(test)
    requires pp in net.preprepares && pp.node == INITIAL_LEADER
    requires forall i :: i in g ==> Member(cfg, i) && Ready(cfg, net, i, pp.at)
    requires |cfg.faulty + g| >= 2 * FaultBound(cfg.n) + 1
    ensures Reached(cfg, net', test) && Evolved(net, net', g)
    ensures AllVoted(net'.prepares, pp, cfg.faulty + g) && AllVoted(net'.commits, pp, cfg.faulty + g)
    ensures forall i :: i in g ==> At(cfg, net', i, StageCommit, pp) && Along(net.nodes[i], net'.nodes[i])
                                   && AllVoted(net'.nodes[i].heardPrepares, pp, cfg.faulty + g)
  {
    var s := cfg.faulty + g;
    var n1 := ForgeVotes(cfg, net, cfg.faulty, pp, test);
    forall i | i in g ensures Ready(cfg, n1, i, pp.at) { assert Ready(cfg, net, i, pp.at); }
    var n2 := PrepareGroup(cfg, n1, g, pp, test);
    hide Reached, Lenient, Extended;
    net' := CommitGroup(cfg, n2, g, pp, s, test);
    forall i | i in g ensures Along(net.nodes[i], net'.nodes[i]) {
      assert At(cfg, net', i, StageCommit, pp) && At(cfg, n2, i, StagePrepare, pp);
      assert Along(n1.nodes[i], n2.nodes[i]) && Along(n2.nodes[i], net'.nodes[i]);
    }
  }

  /** And then it decides. */
  lemma GroupDecides(cfg: Config, net: Net, g: set<NodeId>, pp: Preprepare, test: Test) returns (net': Net)
    requires cfg.shardNum > 0 && Reached(cfg, net, test) && Lenient(test)
    requires pp in net.preprepares && pp.node == INITIAL_LEADER
    requires forall i :: i in g ==> Member(cfg, i) && Ready(cfg, net, i, pp.at)
    requires |cfg.faulty + g| >= 2 * FaultBound(cfg.n) + 1
    ensures Reached(cfg, net', test) && Evolved(net, net', g)
    ensures forall i :: i in g ==> Decided(cfg, net, net', i, pp) && AllVoted(net'.nodes[i].heardPrepares, pp, cfg.faulty + g)
    ensures AllVoted(net'.prepares, pp, cfg.faulty + g) && AllVoted(net'.commits, pp, cfg.faulty + g)
  {
    var n3 := GroupCommits(cfg, net, g, pp, test);
    hide Reached, Lenient, Extended;
    net' := DecideGroup(cfg, n3, g, pp, cfg.faulty + g, test);
    forall i | i in g ensures Decided(cfg, net, net', i, pp) && AllVoted(net'.nodes[i].heardPrepares, pp, cfg.faulty + g) {
      assert At(cfg, n3, i, StageCommit, pp) && Decided(cfg, n3, net', i, pp) && Along(net.nodes[i], n3.nodes[i]);
    }
  }

  // --------------------------------------------------------------------------- counting nodes

  ghost function CorrectNodes(cfg: Config): set<NodeId> { set x | 0 <= x < cfg.n && x !in cfg.faulty }

  ghost function Range(n: nat): (r: set<NodeId>)
    ensures |r| == n && forall x :: x in r <==> 0 <= x < n
  {
    if n == 0 then {} else Range(n - 1) + {n - 1}
  }

  lemma CorrectCount(cfg: Config)
    requires IsConfig(cfg)
    ensures |CorrectNodes(cfg)| == cfg.n - |cfg.faulty|
    ensures |cfg.faulty + CorrectNodes(cfg)| == cfg.n >= 2 * FaultBound(cfg.n) + 1
  {
    assert Range(cfg.n) == cfg.faulty + CorrectNodes(cfg);
  }
}
