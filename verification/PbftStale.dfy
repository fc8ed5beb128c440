/** The runs in which height and round fall apart, and the exact condition under which none does. */
module PbftStale {
  import opened Prelude
  import opened Accounts
  import opened Transactions
  import opened Execute
  import opened ViewSeqs
  import opened MsgPools
  import opened PbftMeta
  import opened PbftSystem
  import opened PbftAgreement
  import opened PbftRuns
  import opened PbftChains
  import opened PbftCatchup
  import opened PbftEarly
  import opened PbftRounds
  import opened Chain

  // ---------------------------------------------------------------------- a faulty leader

  /** All correct nodes decide whatever block a faulty leader sends. */
  lemma FaultyLeaderDecides(cfg: Config, b: Block, test: Test) returns (net: Net)
    requires IsConfig(cfg) && 0 in cfg.faulty && Lenient(test)
    ensures Reached(cfg, net, test) && |net.nodes| == cfg.n
    ensures forall i :: i in CorrectNodes(cfg) ==> 0 <= i < cfg.n && net.nodes[i].m.cur == Round(1)
    ensures forall i :: i in CorrectNodes(cfg) ==>
              net.nodes[i].chain == var c := Extended(NEW_REPLICA, cfg.shardNum, cfg.shard, b); if c.Some? then c.value else NEW_REPLICA
  {
    var pp := Preprepare(Round(0), 1, b, INITIAL_LEADER);
    StartReached(cfg, test);
    var n1 := ForgeProposal(cfg, Start(cfg), pp, test);
    CorrectCount(cfg);
    forall i | i in CorrectNodes(cfg) ensures Ready(cfg, n1, i, Round(0)) && Member(cfg, i) && n1.nodes[i].chain == NEW_REPLICA {
      assert n1.nodes[i] == Start(cfg).nodes[i];
    }
    assert forall i :: i in CorrectNodes(cfg) ==> 0 <= i < cfg.n;
    hide Lenient, Reached, Extended, CorrectNodes, Start;
    net := GroupDecides(cfg, n1, CorrectNodes(cfg), pp, test);
    forall i | i in CorrectNodes(cfg)
      ensures 0 <= i < cfg.n && net.nodes[i].m.cur == Round(1)
      ensures net.nodes[i].chain == var c := Extended(NEW_REPLICA, cfg.shardNum, cfg.shard, b); if c.Some? then c.value else NEW_REPLICA
    {
      assert Decided(cfg, n1, net, i, pp);
    }
  }

  /** A transfer of more than a new account has. */
  function Overdraft(): Tx { Tx(TxBody(0, 1, NORMAL_INIT_BALANCE + 1, 0), Undetermined, NoHash) }

  lemma OverdraftFails(n: nat, shard: Shard)
    requires n > 0
    ensures Applied(EMPTY_STATE, n, shard, TxContent([Overdraft()])).None?
  {
    var txs := [Overdraft()];
    assert txs[..0] == [];
    var locs := LocationsInTxs(EMPTY_STATE.loc, n, txs);
    assert TxsResult(map[], locs, shard, []) == Some(map[]);
    assert TxResult(map[], locs, shard, Overdraft()).None?;
  }

  ghost predicate OutOfStep(cfg: Config, es: seq<Event>) {
    match Run(cfg, es) case None => false case Some(net) => !AllInStep(cfg, net)
  }

  lemma Witness(cfg: Config, net: Net, i: NodeId, test: Test) returns (es: seq<Event>)
    requires Reached(cfg, net, test) && 0 <= i < |net.nodes| && i !in cfg.faulty && !InStep(net.nodes[i])
    ensures OutOfStep(cfg, es) && Throughout(cfg, es, test)
  {
    es :| Run(cfg, es) == Some(net) && Throughout(cfg, es, test);
  }

  /** A faulty leader numbers its block as it likes. */
  lemma WrongNumber(cfg: Config, number: nat, test: Test) returns (es: seq<Event>)
    requires IsConfig(cfg) && 0 in cfg.faulty && CorrectNodes(cfg) != {} && Lenient(test) && number != 2
    ensures OutOfStep(cfg, es) && Throughout(cfg, es, test)
  {
    var b := Block(Header(ZeroHash, number, EMPTY_CONTENT));
    var net := FaultyLeaderDecides(cfg, b, test);
    var i := SomeMember(CorrectNodes(cfg));
    EmptyApplies(EMPTY_STATE, cfg.shardNum, cfg.shard);
    hide Lenient, Applied;
    es := Witness(cfg, net, i, test);
  }

  /** A faulty leader sends a block with the right number that does not execute: the round goes on without it. */
  lemma FailingBlock(cfg: Config, test: Test) returns (es: seq<Event>)
    requires IsConfig(cfg) && 0 in cfg.faulty && CorrectNodes(cfg) != {} && Lenient(test)
    ensures OutOfStep(cfg, es) && Throughout(cfg, es, test)
  {
    var b := Block(Header(HashOfHeader(GENESIS.header), 2, TxContent([Overdraft()])));
    var net := FaultyLeaderDecides(cfg, b, test);
    var i := SomeMember(CorrectNodes(cfg));
    OverdraftFails(cfg.shardNum, cfg.shard);
    hide Lenient, Applied;
    es := Witness(cfg, net, i, test);
  }

  /**
   * As long as answers are taken only if they fit, all correct nodes are in step in every run if and only if the
   * leader is correct (or nobody is).
   */
  lemma AlwaysInStepExactlyWhen(cfg: Config)
    requires IsConfig(cfg)
    ensures (forall es: seq<Event> :: Throughout(cfg, es, Fitting(cfg)) ==> !OutOfStep(cfg, es)) <==>
            (0 !in cfg.faulty || CorrectNodes(cfg) == {})
  {
    if 0 !in cfg.faulty {
      forall es: seq<Event> | Throughout(cfg, es, Fitting(cfg)) ensures !OutOfStep(cfg, es) {
        if Run(cfg, es).Some? {
          var net := Run(cfg, es).value;
          RunShaped(cfg, es);
          CorrectLeaderKeepsStep(cfg, es, net, 0, 0);
        }
      }
    } else if CorrectNodes(cfg) == {} {
      forall es: seq<Event> ensures !OutOfStep(cfg, es) {
        if Run(cfg, es).Some? {
          RunShaped(cfg, es);
          forall i | 0 <= i < cfg.n ensures i in cfg.faulty { assert i !in CorrectNodes(cfg); }
        }
      }
    } else {
      FittingIsLenient(cfg);
      var es := WrongNumber(cfg, 3, Fitting(cfg));
    }
  }

  // -------------------------------------------------- a correct leader, and an answer that comes late

  lemma TakesNothing(cfg: Config, net: Net, a: Answer, j: nat, k: nat)
    requires cfg.shardNum > 0 && Enabled(cfg, net, Receive(a)) && IsWanted(net.nodes[a.dest], a.resp) && j < k
    requires a.resp == CatchupResp([], Round(j), INITIAL_LEADER) && net.nodes[a.dest].chain == LineChain(k)
    ensures var b := Next(cfg, net, Receive(a)).nodes[a.dest]; b.m.cur == Round(j) && b.chain == LineChain(k) && !InStep(b)
  {
    LineGrows(cfg, k);
    hide LineChain;
  }

  /**
   * A node asks in some round, the leader answers with nothing new, everybody goes on to a later round, and only then
   * the answer comes: the node goes back to the round it asked in and keeps its blocks.
   */
  lemma BackInTime(cfg: Config, p: nat, x: NodeId, j: nat, k: nat) returns (es: seq<Event>)
    requires IsConfig(cfg) && 0 !in cfg.faulty && 0 < p < cfg.n && p !in cfg.faulty && x in cfg.faulty && j < k
    ensures OutOfStep(cfg, es)
    ensures var net := Run(cfg, es).value;
            p < |net.nodes| && net.nodes[p].m.cur == Round(j) && net.nodes[p].chain == LineChain(k)
  {
    var test := (net: Net, e: Event) => true;
    var net, a := AnswerComesLate(cfg, p, x, j, k, test);
    assert InRound(cfg, net, p, k, cfg.faulty + CorrectNodes(cfg));
    Extend(cfg, net, Receive(a), test);
    hide LineChain, ExtendedAll;
    TakesNothing(cfg, net, a, j, k);
    var net' := Next(cfg, net, Receive(a));
    es :| Run(cfg, es) == Some(net') && Throughout(cfg, es, test);
    assert !InStep(net'.nodes[p]);
  }
}
