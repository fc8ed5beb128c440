/** Counting transactions by any measure: what each step of the protocol moves, takes in and lets out. */
module TxCounts {
  import opened Prelude
  import opened Accounts
  import opened Transactions
  import opened Execute
  import opened Chain
  import opened Migration
  import opened RelayOps
  import opened Sharding
  import opened ShardingInvariant
  import opened Pool = TxPool

  // ------------------------------------------------------------------ what is counted

  ghost function InMsg(f: Tx -> int): Msg -> int {
    (m: Msg) => if m.ReceiveTxs? then SeqSum(m.txs, f) else 0
  }

  ghost function InProposal(p: Option<Content>, f: Tx -> int): int {
    match p
    case Some(TxContent(txs)) => SeqSum(txs, f)
    case _ => 0
  }

  ghost function AtLeader(f: Tx -> int): Leader -> int {
    (l: Leader) => SeqSum(l.pool, f) + InProposal(l.proposal, f)
  }

  /** All transactions on the network, in pools and in proposals. */
  ghost function InSystem(sys: Sys, f: Tx -> int): int {
    SeqSum(sys.net, InMsg(f)) + SeqSum(sys.shards, AtLeader(f))
  }

  function AsRelay1(tx: Tx): Tx { tx.(stage := Relay1, original := tx.Hash()) }

  /** The measure counts a payment and its first leg alike. */
  ghost predicate IgnoresTags(f: Tx -> int) {
    forall tx: Tx :: tx.stage == Undetermined ==> f(AsRelay1(tx)) == f(tx)
  }

  // --------------------------------------------------------------- what steps take and give

  /** What a leader would pack now. */
  function Packed(cfg: Cfg, self: Shard, l: Leader): seq<Tx>
    requires cfg.shards > 0
  {
    Pick(l.pool[..PackCount(l.pool, cfg.blockSize, IsHere(l.st.loc, cfg.shards, self))], IsHere(l.st.loc, cfg.shards, self))
  }

  /** The preview of what a leader would propose now succeeds. */
  ghost predicate PreviewOk(cfg: Cfg, self: Shard, l: Leader)
    requires cfg.shards > 0
  {
    Applied(l.st, cfg.shards, self, TxContent(TaggedAll(l.st.loc, cfg.shards, self, Packed(cfg, self, l)))).Some?
  }

  function Incoming(act: Action): seq<Tx> { if act.Inject? then act.txs else [] }

  /** The transactions of the block that is committed. */
  function Committed(sys: Sys, act: Action): seq<Tx> {
    match act
    case Commit(s) =>
      if s < |sys.shards| && sys.shards[s].proposal.Some? && sys.shards[s].proposal.value.TxContent?
      then sys.shards[s].proposal.value.txs else []
    case _ => []
  }

  /** What was packed for a proposal that fails its preview. */
  ghost function Aborted(cfg: Cfg, sys: Sys, act: Action): seq<Tx> {
    match act
    case Propose(s, _) =>
      if cfg.shards > 0 && s < |sys.shards| && !sys.shards[s].meta.ready && !PreviewOk(cfg, s, sys.shards[s])
      then Packed(cfg, s, sys.shards[s]) else []
    case _ => []
  }

  /** The second legs of the first legs among these. */
  function LegsOf(txs: seq<Tx>): seq<Tx> { Relay2Legs(Pick(txs, OfStage(Relay1))) }

  // ------------------------------------------------------------------------- messages

  lemma {:induction false} DeliveriesCount(lists: seq<seq<Tx>>, f: Tx -> int)
    ensures SeqSum(Deliveries(lists), InMsg(f)) == ShardSums(lists, f)
  {
    if lists != [] {
      var most, last := lists[..|lists| - 1], lists[|lists| - 1];
      DeliveriesCount(most, f);
      var g := (txs: seq<Tx>) => SeqSum(txs, f);
      assert lists == most + [last];
      SeqSumSnoc(most, last, g);
      if last == [] {
        assert Deliveries(lists) == Deliveries(most) + [];
        assert Deliveries(lists) == Deliveries(most);
      } else {
        SeqSumSnoc(Deliveries(most), ReceiveTxs(|most|, last), InMsg(f));
      }
    }
  }

  lemma {:induction false} OthersCarryNone(msgs: seq<Msg>, f: Tx -> int)
    requires forall m :: m in msgs ==> !m.ReceiveTxs?
    ensures SeqSum(msgs, InMsg(f)) == 0
  {
    if msgs != [] {
      assert msgs[|msgs| - 1] in msgs;
      OthersCarryNone(msgs[..|msgs| - 1], f);
    }
  }

  /** One leader step: the count changes by what the leader and its messages gained. */
  lemma ApplyCount(sys: Sys, s: Shard, e: Effect, f: Tx -> int)
    requires s < |sys.shards|
    ensures InSystem(Apply(sys, s, e), f) ==
            InSystem(sys, f) - AtLeader(f)(sys.shards[s]) + AtLeader(f)(e.leader) + SeqSum(e.out, InMsg(f))
  {
    SeqSumUpdate(sys.shards, s, e.leader, AtLeader(f));
    SeqSumAppend(sys.net, e.out, InMsg(f));
  }

  // ---------------------------------------------------------------------------- steps

  lemma InjectedCount(cfg: Cfg, sys: Sys, txs: seq<Tx>, f: Tx -> int)
    requires cfg.shards > 0 && forall a :: a in sys.sup.part ==> sys.sup.part[a] < cfg.shards
    ensures InSystem(Injected(cfg, sys, txs), f) == InSystem(sys, f) + SeqSum(txs, f)
  {
    var dest := SenderShard(sys.sup.part, cfg.shards);
    DeliveriesCount(ByShard(txs, dest, cfg.shards), f);
    ByShardSums(txs, dest, cfg.shards, f);
    PickAll(txs, (tx: Tx) => dest(tx).Some?);
    SeqSumAppend(sys.net, Deliveries(ByShard(txs, dest, cfg.shards)), InMsg(f));
  }

  lemma RepartitionedCount(cfg: Cfg, sys: Sys, placement: map<Acct, Shard>, f: Tx -> int)
    requires cfg.shards > 0
    ensures InSystem(Repartitioned(cfg, sys, placement), f) == InSystem(sys, f)
  {
    var starts := Repartitioned(cfg, sys, placement).net[|sys.net|..];
    assert Repartitioned(cfg, sys, placement).net == sys.net + starts;
    OthersCarryNone(starts, f);
    SeqSumAppend(sys.net, starts, InMsg(f));
  }

  /** Deliveries move transactions from the network to a pool; other messages carry none. */
  lemma ReceivedCount(cfg: Cfg, sys: Sys, i: nat, f: Tx -> int)
    requires i < |sys.net| && Recipient(sys.net[i]).Some? && 0 <= Recipient(sys.net[i]).value < |sys.shards|
    ensures InSystem(Received(cfg, sys, i), f) == InSystem(sys, f)
  {
    var s := Recipient(sys.net[i]).value;
    var l := sys.shards[s];
    SeqSumWithout(sys.net, i, InMsg(f));
    SeqSumUpdate(sys.shards, s, LeaderReceive(cfg, s, l, sys.net[i]), AtLeader(f));
    if sys.net[i].ReceiveTxs? { SeqSumAppend(l.pool, sys.net[i].txs, f); }
  }

  lemma {:induction false} TaggedCount(loc: map<Acct, Shard>, shardNum: nat, self: Shard, txs: seq<Tx>, f: Tx -> int)
    requires shardNum > 0 && IgnoresTags(f)
    requires forall tx :: tx in txs ==> Coherent(tx) && Local(loc, shardNum, self, tx) && tx.stage != Relay1
    ensures SeqSum(TaggedAll(loc, shardNum, self, txs), f) == SeqSum(txs, f)
  {
    if txs != [] {
      var most, last := txs[..|txs| - 1], txs[|txs| - 1];
      assert last in txs;
      TaggedCount(loc, shardNum, self, most, f);
      TaggedOne(loc, shardNum, self, last);
      var x := Tagged(loc, shardNum, self, last).value;
      assert x == last || (last.stage == Undetermined && x == AsRelay1(last));
      SeqSumSnoc(TaggedAll(loc, shardNum, self, most), x, f);
    }
  }

  /** Packing moves transactions from the pool to the proposal and the network; an aborted pack is lost. */
  lemma ProposeTxsCount(cfg: Cfg, s: Shard, l: Leader, f: Tx -> int)
    requires s < cfg.shards && l.proposal.None? && TxsOk(cfg, l.pool) && IgnoresTags(f)
    requires forall a :: a in l.st.loc ==> l.st.loc[a] < cfg.shards
    ensures var e := ProposeTxs(cfg, s, l);
            AtLeader(f)(e.leader) + SeqSum(e.out, InMsg(f)) + (if PreviewOk(cfg, s, l) then 0 else SeqSum(Packed(cfg, s, l), f))
            == AtLeader(f)(l)
  {
    var here := IsHere(l.st.loc, cfg.shards, s);
    var k := PackCount(l.pool, cfg.blockSize, here);
    var packed := Packed(cfg, s, l);
    PackingConserves(l.pool, cfg.blockSize, l.st.loc, cfg.shards, s, f);
    DeliveriesCount(ByShard(l.pool[..k], Elsewhere(l.st.loc, cfg.shards, s), cfg.shards), f);
    forall tx | tx in packed ensures TxOk(cfg, tx) && Local(l.st.loc, cfg.shards, s, tx) {
      PickMembers(l.pool[..k], here, tx);
    }
    TaggedCount(l.st.loc, cfg.shards, s, packed, f);
  }

  /** Freezing moves the pooled transactions of moving accounts from the pool to the network. */
  lemma SendAccountsCount(cfg: Cfg, s: Shard, l: Leader, f: Tx -> int)
    requires cfg.shards > 0 && forall a :: a in l.meta.modified ==> l.meta.modified[a] < cfg.shards
    ensures var (l', out) := SendAccounts(cfg, s, l);
            l'.proposal == l.proposal && SeqSum(l'.pool, f) + SeqSum(out, InMsg(f)) == SeqSum(l.pool, f)
  {
    if s !in l.meta.collected {
      var taken := l.pool[..Min(MIGRATED_TX_NUM, |l.pool|)];
      var outs := OutMsgs(l.st, cfg.shards, s, l.meta.epoch, l.meta.modified);
      var lists := ByShard(taken, MovesTo(l.meta.modified), cfg.shards);
      SeqSumAppend(outs, Deliveries(lists), InMsg(f));
      OthersCarryNone(outs, f);
      DeliveriesCount(lists, f);
      MigratingConserves(l.pool, l.meta.modified, cfg.shards, f);
    }
  }

  lemma ProposeMigrationCount(cfg: Cfg, s: Shard, l: Leader, moved: map<Acct, Migrated>, f: Tx -> int)
    requires cfg.shards > 0 && l.proposal.None? && forall a :: a in l.meta.modified ==> l.meta.modified[a] < cfg.shards
    ensures var e := ProposeMigration(cfg, s, l, moved); AtLeader(f)(e.leader) + SeqSum(e.out, InMsg(f)) == AtLeader(f)(l)
  {
    SendAccountsCount(cfg, s, l, f);
  }

  /** A commit takes the block out of the system and puts its second legs in. */
  lemma CommitTxsCount(cfg: Cfg, s: Shard, l: Leader, txs: seq<Tx>, f: Tx -> int)
    requires cfg.shards > 0 && l.proposal == Some(TxContent(txs)) && Applied(l.st, cfg.shards, s, TxContent(txs)).Some?
    requires forall a :: a in l.st.loc ==> l.st.loc[a] < cfg.shards
    ensures var e := CommitTxs(cfg, s, l, txs);
            AtLeader(f)(e.leader) + SeqSum(e.out, InMsg(f)) == AtLeader(f)(l) - SeqSum(txs, f) + SeqSum(LegsOf(txs), f)
  {
    var r1 := Pick(txs, OfStage(Relay1));
    var dest := RecipientShard(l.st.loc, cfg.shards);
    var lists := ByShard(Relay2Legs(r1), dest, cfg.shards);
    var info := BlockInfo(s, l.epoch, Pick(txs, OfStage(Undetermined)), r1, Pick(txs, OfStage(Relay2)));
    assert CommitTxs(cfg, s, l, txs).out == [info] + Deliveries(lists);
    hide Applied;
    SeqSumAppend([info], Deliveries(lists), InMsg(f));
    SeqSumOne(info, InMsg(f));
    DeliveriesCount(lists, f);
    ByShardSums(Relay2Legs(r1), dest, cfg.shards, f);
    PickAll(Relay2Legs(r1), (tx: Tx) => dest(tx).Some?);
  }

  lemma ProposeCount(cfg: Cfg, sys: Sys, s: Shard, moved: map<Acct, Migrated>, f: Tx -> int)
    requires Inv(cfg, sys) && Enabled(cfg, sys, Propose(s, moved)) && IgnoresTags(f)
    ensures InSystem(Next(cfg, sys, Propose(s, moved)), f) + SeqSum(Aborted(cfg, sys, Propose(s, moved)), f) == InSystem(sys, f)
  {
    var l := sys.shards[s];
    assert LeaderOk(cfg, sys, s) && MetaAt(cfg, sys, s) && LocationsAt(cfg, sys, s);
    hide MsgOk, Unheard, NoClash, LeaderOk, ProposeTxs, ProposeMigration;
    ApplyCount(sys, s, LeaderPropose(cfg, s, l, moved), f);
    if l.meta.ready { ProposeMigrationCount(cfg, s, l, moved, f); } else { ProposeTxsCount(cfg, s, l, f); }
  }

  lemma CommitCount(cfg: Cfg, sys: Sys, s: Shard, f: Tx -> int)
    requires Inv(cfg, sys) && Enabled(cfg, sys, Commit(s))
    ensures var block := Committed(sys, Commit(s));
            InSystem(Next(cfg, sys, Commit(s)), f) + SeqSum(block, f) == InSystem(sys, f) + SeqSum(LegsOf(block), f)
  {
    var l := sys.shards[s];
    assert LeaderOk(cfg, sys, s) && ProposalAt(cfg, sys, s) && LocationsAt(cfg, sys, s);
    hide MsgOk, Unheard, NoClash, LeaderOk, CommitTxs;
    ApplyCount(sys, s, LeaderCommit(cfg, s, l), f);
    if l.proposal.value.TxContent? { CommitTxsCount(cfg, s, l, l.proposal.value.txs, f); }
  }

  /** Every step, by any measure that does not tell payments from first legs: what is added, what leaves, what remains. */
  lemma StepCounts(cfg: Cfg, sys: Sys, act: Action, f: Tx -> int)
    requires Inv(cfg, sys) && Enabled(cfg, sys, act) && IgnoresTags(f)
    ensures InSystem(Next(cfg, sys, act), f) + SeqSum(Committed(sys, act), f) + SeqSum(Aborted(cfg, sys, act), f)
            == InSystem(sys, f) + SeqSum(Incoming(act), f) + SeqSum(LegsOf(Committed(sys, act)), f)
  {
    hide MsgOk, Unheard, NoClash, LeaderOk, LeaderPropose, LeaderCommit;
    match act
    case Inject(txs) => InjectedCount(cfg, sys, txs, f);
    case Repartition(placement) => RepartitionedCount(cfg, sys, placement, f);
    case Info(i) => SeqSumWithout(sys.net, i, InMsg(f));
    case Deliver(i) => ReceivedCount(cfg, sys, i, f);
    case Propose(s, moved) => ProposeCount(cfg, sys, s, moved, f);
    case Commit(s) => CommitCount(cfg, sys, s, f);
  }
}
