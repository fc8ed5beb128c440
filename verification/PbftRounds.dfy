/** Runs of many rounds, in each of which the leader proposes an empty block and a group decides it. */
module PbftRounds {
  import opened Prelude
  import opened Accounts
  import opened Transactions
  import opened Execute
  import opened ViewSeqs
  import opened MsgPools
  import opened PbftMeta
  import opened PbftSystem
  import opened PbftAgreement
  import opened PbftRuns
  import opened Chain

  const EMPTY_CONTENT := TxContent([])

  lemma EmptyApplies(s: State, n: nat, shard: Shard)
    requires n > 0 && s.db == map[]
    ensures Applied(s, n, shard, EMPTY_CONTENT) == Some(s)
  {
    assert Prune(map[]) == map[];
  }

  /** The empty block of round k, on those before it. */
  function LineBlock(k: nat): Block {
    Block(Header(HashOfHeader(if k == 0 then GENESIS.header else LineBlock(k - 1).header), k + 2, EMPTY_CONTENT))
  }

  function LineChain(k: nat): Replica { Replica([GENESIS] + seq(k, i requires 0 <= i < k => LineBlock(i)), EMPTY_STATE) }

  function RoundProposal(k: nat): Preprepare { Preprepare(Round(k), 1, LineBlock(k), INITIAL_LEADER) }

  lemma LineGrows(cfg: Config, k: nat)
    requires cfg.shardNum > 0
    ensures Extended(LineChain(k), cfg.shardNum, cfg.shard, LineBlock(k)) == Some(LineChain(k + 1))
    ensures LineChain(k).Height() == |LineChain(k).history| == k + 1 && LineChain(0) == NEW_REPLICA
    ensures LineChain(k).history[k].header == if k == 0 then GENESIS.header else LineBlock(k - 1).header
  {
    EmptyApplies(EMPTY_STATE, cfg.shardNum, cfg.shard);
    hide Applied;
    assert LineChain(k).history + [LineBlock(k)] == LineChain(k + 1).history;
  }

  /** At the beginning of round k, with the empty blocks before it on the chain. */
  ghost predicate AtRound(cfg: Config, net: Net, i: NodeId, k: nat) {
    Ready(cfg, net, i, Round(k)) && Member(cfg, i) && net.nodes[i].chain == LineChain(k)
  }

  /** The proposal of round k is out, or the leader can make it: it is faulty, or in that round and has not proposed yet. */
  ghost predicate MayPropose(cfg: Config, net: Net, k: nat) {
    RoundProposal(k) in net.preprepares || 0 in cfg.faulty || (AtRound(cfg, net, 0, k) && !net.nodes[0].m.proposed)
  }

  lemma ProposedIs(cfg: Config, a: Node, k: nat)
    requires cfg.shardNum > 0 && a.chain == LineChain(k) && a.m.cur == Round(k)
    ensures Proposed(cfg, a, 1, EMPTY_CONTENT) == Some(RoundProposal(k))
  {
    LineGrows(cfg, k);
    EmptyApplies(EMPTY_STATE, cfg.shardNum, cfg.shard);
    hide Applied;
  }

  /** The leader, correct or not, proposes the empty block of its round, unless it has. */
  lemma GetsProposed(cfg: Config, net: Net, k: nat, test: Test) returns (net': Net)
    requires IsConfig(cfg) && Lenient(test) && Reached(cfg, net, test) && |net.nodes| == cfg.n && MayPropose(cfg, net, k)
    ensures Reached(cfg, net', test) && Evolved(net, net', {0}) && RoundProposal(k) in net'.preprepares
    ensures forall i :: 0 <= i < |net.nodes| ==> net'.nodes[i] == net.nodes[i].(m := net.nodes[i].m.(proposed := net'.nodes[i].m.proposed))
    ensures 0 in cfg.faulty ==> net'.nodes == net.nodes
  {
    if RoundProposal(k) in net.preprepares { return net; }
    var e := if 0 in cfg.faulty then ForgePreprepare(RoundProposal(k)) else PbftSystem.Propose(1, EMPTY_CONTENT);
    if 0 !in cfg.faulty { ProposedIs(cfg, net.nodes[0], k); }
    assert LineChain(k).history != [];
    hide LineChain, LineBlock, Proposed;
    Extend(cfg, net, e, test);
    hide Reached, Lenient;
    net' := Next(cfg, net, e);
  }

  /** All votes of s for the rounds before k have been heard and taken from the pool. */
  ghost predicate Counted(a: Node, k: nat, s: set<NodeId>) {
    && (forall j: nat :: j < k ==> AllVoted(a.heardPrepares, RoundProposal(j), s))
    && (forall v :: v in a.m.prepares ==> AtMost(Round(k), v.at))
    && a.m.latest.view == 0
  }

  ghost predicate InRound(cfg: Config, net: Net, i: NodeId, k: nat, s: set<NodeId>) {
    AtRound(cfg, net, i, k) && Counted(net.nodes[i], k, s)
  }

  lemma InRoundIs(cfg: Config, net: Net, i: nat, k: nat, s: set<NodeId>)
    requires cfg.shardNum > 0 && InRound(cfg, net, i, k, s)
    ensures i < |net.nodes| && i !in cfg.faulty && AtRound(cfg, net, i, k)
    ensures var a := net.nodes[i];
            a.m.cur == Round(k) && a.m.latest.view == 0 && a.m.leader == INITIAL_LEADER && a.chain == LineChain(k) && a.chain.Height() == k + 1
  {
    LineGrows(cfg, k);
  }

  /** The messages of the round are there for everybody who has not heard them yet. */
  ghost predicate Sent(net: Net, k: nat, s: set<NodeId>) {
    RoundProposal(k) in net.preprepares && AllVoted(net.prepares, RoundProposal(k), s) && AllVoted(net.commits, RoundProposal(k), s)
  }

  lemma DecidedRound(cfg: Config, net: Net, net': Net, i: NodeId, k: nat, s: set<NodeId>)
    requires cfg.shardNum > 0 && Decided(cfg, net, net', i, RoundProposal(k)) && Member(cfg, i)
    requires net.nodes[i].chain == LineChain(k) && Counted(net.nodes[i], k, s) && net.nodes[i].m.cur.view == 0
    requires AllVoted(net'.nodes[i].heardPrepares, RoundProposal(k), s)
    ensures InRound(cfg, net', i, k + 1, s) && !net'.nodes[i].m.proposed
  {
    LineGrows(cfg, k);
    var a, b := net.nodes[i], net'.nodes[i];
    hide Extended;
    forall j: nat | j < k + 1 ensures AllVoted(b.heardPrepares, RoundProposal(j), s) {
      if j < k { assert AllVoted(a.heardPrepares, RoundProposal(j), s); }
    }
  }

  ghost predicate IsQuorum(cfg: Config, g: set<NodeId>) { |cfg.faulty + g| >= 2 * FaultBound(cfg.n) + 1 }

  /** The group decides the empty block of its round, once it is proposed. */
  lemma DecideRound(cfg: Config, mid: Net, g: set<NodeId>, k: nat, s: set<NodeId>, test: Test) returns (net: Net)
    requires IsConfig(cfg) && Lenient(test) && Reached(cfg, mid, test)
    requires IsQuorum(cfg, g) && s <= cfg.faulty + g && RoundProposal(k) in mid.preprepares
    requires forall i :: i in g ==> InRound(cfg, mid, i, k, s)
    ensures Reached(cfg, net, test) && Evolved(mid, net, g) && Sent(net, k, s)
    ensures forall i :: i in g ==> InRound(cfg, net, i, k + 1, s) && !net.nodes[i].m.proposed
                                   && net.nodes[i].m.catchupStarted == mid.nodes[i].m.catchupStarted
  {
    hide Reached, Lenient, LineBlock, LineChain, Counted;
    forall i | i in g ensures Ready(cfg, mid, i, Round(k)) && Member(cfg, i) && mid.nodes[i].chain == LineChain(k) {
      assert InRound(cfg, mid, i, k, s);
    }
    hide AtRound;
    net := GroupDecides(cfg, mid, g, RoundProposal(k), test);
    forall i | i in g
      ensures InRound(cfg, net, i, k + 1, s) && !net.nodes[i].m.proposed
      ensures net.nodes[i].m.catchupStarted == mid.nodes[i].m.catchupStarted
    {
      assert InRound(cfg, mid, i, k, s) && Ready(cfg, mid, i, Round(k)) && Decided(cfg, mid, net, i, RoundProposal(k));
      assert AllVoted(net.nodes[i].heardPrepares, RoundProposal(k), s);
      DecidedRound(cfg, mid, net, i, k, s);
    }
  }

  lemma LeaderMayPropose(cfg: Config, net: Net, k: nat, s: set<NodeId>)
    requires InRound(cfg, net, 0, k, s) && !net.nodes[0].m.proposed
    ensures MayPropose(cfg, net, k)
  {
  }

  lemma FaultyMayPropose(cfg: Config, net: Net, k: nat)
    requires 0 in cfg.faulty
    ensures MayPropose(cfg, net, k)
  {
  }

  /** The leader proposes, and the group decides. */
  lemma OneRound(cfg: Config, mid: Net, g: set<NodeId>, k: nat, s: set<NodeId>, test: Test) returns (net: Net)
    requires IsConfig(cfg) && Lenient(test) && Reached(cfg, mid, test) && |mid.nodes| == cfg.n
    requires MayPropose(cfg, mid, k) && (0 in cfg.faulty || 0 in g) && IsQuorum(cfg, g) && s <= cfg.faulty + g
    requires forall i :: i in g ==> InRound(cfg, mid, i, k, s)
    ensures Reached(cfg, net, test) && Evolved(mid, net, g) && Sent(net, k, s) && MayPropose(cfg, net, k + 1)
    ensures forall i :: i in g ==> InRound(cfg, net, i, k + 1, s) && net.nodes[i].m.catchupStarted == mid.nodes[i].m.catchupStarted
  {
    var n1 := GetsProposed(cfg, mid, k, test);
    hide Reached, Lenient, LineBlock, LineChain, MayPropose;
    forall i | i in g ensures InRound(cfg, n1, i, k, s) {
      assert InRound(cfg, mid, i, k, s);
    }
    hide AtRound, Counted;
    net := DecideRound(cfg, n1, g, k, s, test);
    if 0 !in cfg.faulty { LeaderMayPropose(cfg, net, k + 1, s); } else { FaultyMayPropose(cfg, net, k + 1); }
  }

  /** One round after the other. */
  lemma {:induction false} Rounds(cfg: Config, mid: Net, g: set<NodeId>, j: nat, k: nat, s: set<NodeId>, test: Test) returns (net: Net)
    requires IsConfig(cfg) && Lenient(test) && Reached(cfg, mid, test) && |mid.nodes| == cfg.n && j <= k
    requires MayPropose(cfg, mid, j) && (0 in cfg.faulty || 0 in g) && IsQuorum(cfg, g) && s <= cfg.faulty + g
    requires forall i :: i in g ==> InRound(cfg, mid, i, j, s)
    ensures Reached(cfg, net, test) && Evolved(mid, net, g) && MayPropose(cfg, net, k)
    ensures forall i :: i in g ==> InRound(cfg, net, i, k, s) && net.nodes[i].m.catchupStarted == mid.nodes[i].m.catchupStarted
    ensures forall r: nat :: j <= r < k ==> Sent(net, r, s)
    decreases k
  {
    hide InRound, Reached, Lenient, MayPropose, IsQuorum, LineBlock;
    if j == k {
      net := mid;
    } else {
      var n1 := Rounds(cfg, mid, g, j, k - 1, s, test);
      net := OneRound(cfg, n1, g, k - 1, s, test);
      forall r: nat | j <= r < k ensures Sent(net, r, s) {
        if r < k - 1 { assert Sent(n1, r, s); }
      }
    }
  }

  /** At the start everybody is in round 0, and has counted nothing. */
  lemma FirstRound(cfg: Config, s: set<NodeId>, test: Test)
    requires IsConfig(cfg)
    ensures Reached(cfg, Start(cfg), test) && |Start(cfg).nodes| == cfg.n && MayPropose(cfg, Start(cfg), 0)
    ensures forall i :: i in CorrectNodes(cfg) ==> InRound(cfg, Start(cfg), i, 0, s) && !Start(cfg).nodes[i].m.catchupStarted
  {
    StartReached(cfg, test);
    LineGrows(cfg, 0);
  }
}
