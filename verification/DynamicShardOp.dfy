/** The leader of a shard as an object: its chain, its pool and its migration metadata, changed in place. */
module DynamicShardOp {
  import opened Prelude
  import opened Accounts
  import opened Transactions
  import opened Execute
  import opened Chain
  import opened Migration
  import opened RelayOps
  import opened Sharding
  import opened Pool = TxPool

  /** One message per shard that gets transactions. */
  method SendWrappedTxs2Shards(lists: seq<seq<Tx>>) returns (out: seq<Msg>)
    ensures out == Deliveries(lists)
  {
    out := [];
    for i := 0 to |lists|
      invariant out == Deliveries(lists[..i])
    {
      assert lists[..i + 1][..i] == lists[..i];
      if |lists[i]| > 0 { out := out + [ReceiveTxs(i, lists[i])]; }
    }
    assert lists[..|lists|] == lists;
  }

  class DynamicShardOp {
    const chain: Chain
    const txPool: TxPool
    const amm: AccMigrateMetadata
    const cfg: Cfg

    constructor (chain: Chain, txPool: TxPool, amm: AccMigrateMetadata, cfg: Cfg)
      ensures this.chain == chain && this.txPool == txPool && this.amm == amm && this.cfg == cfg
    {
      this.chain, this.txPool, this.amm, this.cfg := chain, txPool, amm, cfg;
    }

    ghost predicate Valid()
      reads this, chain, txPool, amm
    {
      && cfg.shards > 0 && chain.shardNum == amm.shardNum == cfg.shards && chain.shardID == amm.shardID
      && chain.Valid()
      && (forall a :: a in chain.state.loc ==> chain.state.loc[a] < cfg.shards)
      && (forall a :: a in amm.CurModifiedMap ==> amm.CurModifiedMap[a] < cfg.shards)
    }

    /** The objects hold what l says; whether a proposal is open is the consensus layer's business. */
    ghost predicate Holds(l: Leader)
      reads this, chain, txPool, amm
    {
      l.st == chain.state && l.epoch == chain.epochID && l.meta == amm.View() && l.pool == txPool.queue
    }

    /** One proposal attempt is the transition of the leader; moved is the merge when a migration block is proposed. */
    method BuildProposal(ghost l: Leader) returns (p: Option<Block>, out: seq<Msg>, ghost moved: map<Acct, Migrated>)
      requires Valid() && Holds(l) && l.proposal.None?
      modifies txPool
      ensures Valid()
      ensures var e := LeaderPropose(cfg, chain.shardID, l, moved);
              && Holds(e.leader) && out == e.out
              && (p.Some? <==> e.leader.proposal.Some?)
              && (p.Some? ==> p.value.header.content == e.leader.proposal.value && Follows(p.value.header, chain.curHeader))
      ensures amm.MigrationReady && |amm.MigratedAccountStates| == cfg.shards ==> IsMerge(l.meta, moved)
    {
      moved := map[];
      if !amm.MigrationReady {
        p, out := BuildBlockProposal(l);
      } else {
        p, out, moved := BuildPartitionProposal(l);
      }
    }

    method BuildBlockProposal(ghost l: Leader) returns (p: Option<Block>, out: seq<Msg>)
      requires Valid() && Holds(l) && l.proposal.None?
      modifies txPool
      ensures Valid()
      ensures var e := ProposeTxs(cfg, chain.shardID, l);
              && Holds(e.leader) && out == e.out
              && (p.Some? <==> e.leader.proposal.Some?)
              && (p.Some? ==> p.value.header.content == e.leader.proposal.value && Follows(p.value.header, chain.curHeader))
    {
      var packed, forwarded := PackValidTxsInRelay(txPool, chain, cfg.blockSize);
      out := SendWrappedTxs2Shards(forwarded);
      var tagged := ModifyTxRelayOpt(chain, packed);
      p := chain.GenerateBlock(TxContent(tagged));
    }

    method BuildPartitionProposal(ghost l: Leader) returns (p: Option<Block>, out: seq<Msg>, ghost moved: map<Acct, Migrated>)
      requires Valid() && Holds(l) && l.proposal.None?
      modifies txPool
      ensures Valid()
      ensures var e := ProposeMigration(cfg, chain.shardID, l, moved);
              && Holds(e.leader) && out == e.out
              && (p.Some? <==> e.leader.proposal.Some?)
              && (p.Some? ==> p.value.header.content == e.leader.proposal.value && Follows(p.value.header, chain.curHeader))
      ensures |amm.MigratedAccountStates| == cfg.shards ==> IsMerge(l.meta, moved)
    {
      out := [];
      if chain.shardID !in amm.MigratedAccountStates {
        out := Migrate();
      }
      var r := amm.GetMigratedAddrStates();
      if r.None? { return None, out, map[]; }
      moved := r.value;
      p := chain.GenerateBlock(MigrationContent(r.value));
    }

    /** The migrating accounts and the pooled transactions that wait for them go out. */
    method Migrate() returns (out: seq<Msg>)
      requires Valid()
      modifies txPool
      ensures var taken := old(txPool.queue)[..Pool.Min(MIGRATED_TX_NUM, |old(txPool.queue)|)];
              && out == OutMsgs(chain.state, cfg.shards, chain.shardID, amm.Epoch, amm.CurModifiedMap)
                        + Deliveries(ByShard(taken, MovesTo(amm.CurModifiedMap), cfg.shards))
              && txPool.queue == old(txPool.queue)[|taken|..] + Pick(taken, Stays(amm.CurModifiedMap))
    {
      var msgs := MigrateAccounts(chain, amm);
      var lists := MigrateTxsInRelay(txPool, amm.CurModifiedMap, cfg.shards);
      var deliveries := SendWrappedTxs2Shards(lists);
      out := seq(|msgs|, d requires 0 <= d < |msgs| => AccountMigration(msgs[d])) + deliveries;
    }

    /** Committing a proposal is the commit transition of the leader; only a leader delivers. */
    method ProposalCommitAndDeliver(isLeader: bool, b: Block, ghost l: Leader) returns (ok: bool, out: seq<Msg>)
      requires Valid() && Holds(l) && l.proposal == Some(b.header.content)
      requires b.header.content.MigrationContent? ==> forall a :: a in b.header.content.moved ==> b.header.content.moved[a].location < cfg.shards
      modifies chain, amm
      ensures Holds(LeaderCommit(cfg, chain.shardID, l).leader)
      ensures out == if isLeader then LeaderCommit(cfg, chain.shardID, l).out else []
      ensures ok <==> Applied(l.st, cfg.shards, chain.shardID, b.header.content).Some?
      ensures Follows(b.header, old(chain.curHeader)) ==> Valid()
    {
      match b.header.content {
        case MigrationContent(moved) =>
          ok := MigrationBlockCommit(b, l);
          out := [];
        case TxContent(txs) =>
          ok, out := BlockCommitAndDeliver(isLeader, b, l);
      }
    }

    method MigrationBlockCommit(b: Block, ghost l: Leader) returns (ok: bool)
      requires Valid() && Holds(l) && l.proposal == Some(b.header.content) && b.header.content.MigrationContent?
      requires forall a :: a in b.header.content.moved ==> b.header.content.moved[a].location < cfg.shards
      modifies chain, amm
      ensures Holds(CommitMigration(cfg, chain.shardID, l, b.header.content.moved).leader) && ok
      ensures Follows(b.header, old(chain.curHeader)) ==> Valid()
    {
      ok := chain.AddBlock(b);
      chain.UpdateEpoch(amm.Epoch);
      amm.MigrationStatusReset();
    }

    method BlockCommitAndDeliver(isLeader: bool, b: Block, ghost l: Leader) returns (ok: bool, out: seq<Msg>)
      requires Valid() && Holds(l) && l.proposal == Some(b.header.content) && b.header.content.TxContent?
      modifies chain
      ensures Holds(CommitTxs(cfg, chain.shardID, l, b.header.content.txs).leader)
      ensures out == if isLeader then CommitTxs(cfg, chain.shardID, l, b.header.content.txs).out else []
      ensures ok <==> Applied(l.st, cfg.shards, chain.shardID, b.header.content).Some?
      ensures Follows(b.header, old(chain.curHeader)) ==> Valid()
    {
      var txs := b.header.content.txs;
      ok := chain.AddBlock(b);
      if !ok || !isLeader { return ok, []; }
      var innerTxs, r1Txs, r2Txs := SplitTxs(txs);
      forall tx | tx in r1Txs ensures tx in txs {
        PickMembers(txs, OfStage(Relay1), tx);
      }
      var relayed := SendRelayedTxs(chain, txs, r1Txs);
      var deliveries := SendWrappedTxs2Shards(relayed);
      out := [BlockInfo(chain.shardID, chain.epochID, innerTxs, r1Txs, r2Txs)] + deliveries;
    }

    /** Messages from outside: transactions, a repartition start, migrated accounts. */
    method HandleMsgOutsideShard(msg: Msg, ghost l: Leader)
      requires Valid() && Holds(l)
      requires msg.RepartitionStart? ==> forall a :: a in msg.modified ==> msg.modified[a] < cfg.shards
      modifies txPool, amm
      ensures Valid() && Holds(LeaderReceive(cfg, chain.shardID, l, msg))
    {
      match msg {
        case ReceiveTxs(_, txs) => txPool.AddTxs(txs);
        case RepartitionStart(_, epoch, modified) =>
          var ok := amm.UpdateByRepartitionStartMsg(epoch, modified);
          if ok { StartedMap(l.meta, cfg.shards, chain.shardID, epoch, modified); }
        case AccountMigration(m) => var _ := amm.CollectStatesByMsg(m);
        case BlockInfo(_, _, _, _, _) =>
      }
    }
  }

  lemma {:induction false} CollectKeepsMap(m: Meta, shardNum: nat, self: Shard, msgs: seq<MigrationMsg>)
    ensures CollectAll(m, shardNum, self, msgs).modified == m.modified
  {
    if msgs != [] { CollectKeepsMap(m, shardNum, self, msgs[..|msgs| - 1]); }
  }

  lemma StartedMap(m: Meta, shardNum: nat, self: Shard, epoch: int, modified: map<Acct, Shard>)
    requires StartEpoch(m, shardNum, self, epoch, modified).Some?
    ensures StartEpoch(m, shardNum, self, epoch, modified).value.modified == modified
  {
    var entered := m.(epoch := epoch, modified := modified, ready := true);
    CollectKeepsMap(entered, shardNum, self, Early(entered, epoch));
  }
}
