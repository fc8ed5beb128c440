/** Where transactions are sent: every transaction a step puts on the network goes to the shard that has to execute it. */
module ShardingRouting {
  import opened Prelude
  import opened Accounts
  import opened Transactions
  import opened Execute
  import opened Chain
  import opened Migration
  import opened RelayOps
  import opened Sharding
  import opened ShardingInvariant
  import opened ShardingSteps
  import opened ShardingTheorems
  import Pool = TxPool

  /** A second leg waits for its recipient, everything else for its sender. */
  function Waiting(tx: Tx): Acct { if tx.stage == Relay2 then tx.body.recipient else tx.body.sender }

  /** The placement a step sends by: the supervisor's, the leader's own, or the new one for accounts that are leaving. */
  function PlacedBy(sys: Sys, act: Action): map<Acct, Shard> {
    match act
    case Propose(s, _) =>
      if s >= |sys.shards| then map[] else if sys.shards[s].meta.ready then sys.shards[s].meta.modified else sys.shards[s].st.loc
    case Commit(s) => if s < |sys.shards| then sys.shards[s].st.loc else map[]
    case _ => sys.sup.part
  }

  /** The message is put on the network by this step and carries this transaction. */
  ghost predicate Sends(cfg: Cfg, sys: Sys, act: Action, m: Msg, tx: Tx) {
    && Enabled(cfg, sys, act) && (act.Inject? || act.Propose? || act.Commit?)
    && |sys.net| <= |Next(cfg, sys, act).net|
    && m in Next(cfg, sys, act).net[|sys.net|..] && m.ReceiveTxs? && tx in m.txs
  }

  // ------------------------------------------------------------------ what is delivered

  lemma {:induction false} DeliveryMembers(lists: seq<seq<Tx>>, d: nat)
    requires d < |lists| && lists[d] != []
    ensures ReceiveTxs(d, lists[d]) in Deliveries(lists)
  {
    if d < |lists| - 1 {
      DeliveryMembers(lists[..|lists| - 1], d);
    }
  }

  /** A delivered transaction was in the list of its destination. */
  lemma FiledThere(txs: seq<Tx>, dest: Tx -> Option<Shard>, n: nat, m: Msg, tx: Tx)
    requires m in Deliveries(ByShard(txs, dest, n)) && m.ReceiveTxs? && tx in m.txs
    ensures tx in txs && dest(tx) == Some(m.to) && m.to < n
  {
    DeliveriesAre(ByShard(txs, dest, n));
    PickMembers(txs, (t: Tx) => dest(t) == Some(m.to), tx);
  }

  lemma OnlyAccounts(st: State, n: nat, s: Shard, epoch: int, modified: map<Acct, Shard>, m: Msg)
    requires n > 0 && m in OutMsgs(st, n, s, epoch, modified)
    ensures m.AccountMigration?
  {
  }

  /** What a commit delivers are the second legs of what it commits. */
  lemma CommittedLeg(cfg: Cfg, s: Shard, l: Leader, txs: seq<Tx>, m: Msg, tx: Tx)
    requires cfg.shards > 0 && m in CommitTxs(cfg, s, l, txs).out && m.ReceiveTxs? && tx in m.txs
    ensures tx.stage == Relay2 && tx.(stage := Relay1) in txs && m.to < cfg.shards
    ensures LocOf(l.st.loc, tx.body.recipient, cfg.shards) == m.to
  {
    var r1 := Pick(txs, OfStage(Relay1));
    FiledThere(Relay2Legs(r1), RecipientShard(l.st.loc, cfg.shards), cfg.shards, m, tx);
    LegsMembers(r1, tx);
    var first :| first in r1 && tx == first.(stage := Relay2);
    PickMembers(txs, OfStage(Relay1), first);
  }

  /** Whatever a step sends, it sends to the shard where its placement has the account the transaction waits for. */
  lemma SentIsAimed(cfg: Cfg, sys: Sys, act: Action, m: Msg, tx: Tx)
    requires cfg.shards > 0 && Sends(cfg, sys, act, m, tx)
    ensures m.to < cfg.shards && LocOf(PlacedBy(sys, act), Waiting(tx), cfg.shards) == m.to
  {
    match act
    case Inject(txs) => FiledThere(txs, SenderShard(sys.sup.part, cfg.shards), cfg.shards, m, tx);
    case Commit(s) =>
      var l := sys.shards[s];
      if l.proposal.value.TxContent? { CommittedLeg(cfg, s, l, l.proposal.value.txs, m, tx); }
    case Propose(s, moved) =>
      var l := sys.shards[s];
      if l.meta.ready {
        ForwardedByMigration(cfg, s, l, moved, m, tx);
      } else {
        var k := PackCount(l.pool, cfg.blockSize, IsHere(l.st.loc, cfg.shards, s));
        FiledThere(l.pool[..k], Elsewhere(l.st.loc, cfg.shards, s), cfg.shards, m, tx);
      }
  }

  lemma ForwardedByMigration(cfg: Cfg, s: Shard, l: Leader, moved: map<Acct, Migrated>, m: Msg, tx: Tx)
    requires cfg.shards > 0 && m in ProposeMigration(cfg, s, l, moved).out && m.ReceiveTxs? && tx in m.txs
    ensures m.to < cfg.shards && Waiting(tx) in l.meta.modified && l.meta.modified[Waiting(tx)] == m.to
  {
    var (sent, out) := SendAccounts(cfg, s, l);
    var taken := l.pool[..Pool.Min(MIGRATED_TX_NUM, |l.pool|)];
    if m in OutMsgs(l.st, cfg.shards, s, l.meta.epoch, l.meta.modified) {
      OnlyAccounts(l.st, cfg.shards, s, l.meta.epoch, l.meta.modified, m);
      assert false;
    }
    FiledThere(taken, MovesTo(l.meta.modified), cfg.shards, m, tx);
  }

  /**
   * Freezing hands the pool over: of the transactions taken from it, each that waits for a moving account is sent, as
   * often, to that account's new shard and is in the pool no more; every other one stays.
   */
  lemma FreezingHandsOver(cfg: Cfg, s: Shard, l: Leader, tx: Tx)
    requires cfg.shards > 0 && s !in l.meta.collected && forall a :: a in l.meta.modified ==> l.meta.modified[a] < cfg.shards
    ensures var (l', out) := SendAccounts(cfg, s, l);
            var taken, rest := l.pool[..Pool.Min(MIGRATED_TX_NUM, |l.pool|)], l.pool[Pool.Min(MIGRATED_TX_NUM, |l.pool|)..];
            var leaves := Waiting(tx) in l.meta.modified;
            && l'.snapped && l'.proposal == l.proposal && l'.st == l.st && l'.meta == l.meta
            && multiset(l'.pool)[tx] == multiset(rest)[tx] + (if leaves then 0 else multiset(taken)[tx])
            && (leaves && tx in taken ==>
                  exists m :: m in out && m.ReceiveTxs? && m.to == l.meta.modified[Waiting(tx)] && multiset(m.txs)[tx] == multiset(taken)[tx])
  {
    var taken := l.pool[..Pool.Min(MIGRATED_TX_NUM, |l.pool|)];
    var lists := ByShard(taken, MovesTo(l.meta.modified), cfg.shards);
    MigratedOrKept(taken, l.meta.modified, cfg.shards, tx, 0);
    if Waiting(tx) in l.meta.modified && tx in taken {
      var d := l.meta.modified[Waiting(tx)];
      MigratedOrKept(taken, l.meta.modified, cfg.shards, tx, d);
      assert multiset(lists[d])[tx] == multiset(taken)[tx] > 0;
      DeliveryMembers(lists, d);
      assert ReceiveTxs(d, lists[d]) in SendAccounts(cfg, s, l).1;
    }
  }

  // ------------------------------------------------------------------ proposals and reports

  /** How a proposed transaction runs in shard s: whole, as a first leg that leaves the shard, or as a second leg. */
  predicate Routed(loc: map<Acct, Shard>, n: nat, s: Shard, tx: Tx)
    requires n > 0
  {
    match tx.stage
    case Undetermined => LocOf(loc, tx.body.sender, n) == s && LocOf(loc, tx.body.recipient, n) == s
    case Relay1 => LocOf(loc, tx.body.sender, n) == s && LocOf(loc, tx.body.recipient, n) != s && tx.original == HashOf(tx.body)
    case Relay2 => LocOf(loc, tx.body.recipient, n) == s
  }

  ghost predicate ProposalRouted(cfg: Cfg, l: Leader, s: Shard)
    requires cfg.shards > 0
  {
    match l.proposal
    case Some(TxContent(txs)) => forall tx :: tx in txs ==> Routed(l.st.loc, cfg.shards, s, tx)
    case _ => true
  }

  lemma ProposedRouted(cfg: Cfg, s: Shard, l: Leader)
    requires cfg.shards > 0 && TxsOk(cfg, l.pool) && l.proposal.None?
    ensures ProposalRouted(cfg, ProposeTxs(cfg, s, l).leader, s)
  {
    var k := PackCount(l.pool, cfg.blockSize, IsHere(l.st.loc, cfg.shards, s));
    var packed := Pick(l.pool[..k], IsHere(l.st.loc, cfg.shards, s));
    forall tx | tx in packed ensures TxOk(cfg, tx) && Local(l.st.loc, cfg.shards, s, tx) {
      PickMembers(l.pool[..k], IsHere(l.st.loc, cfg.shards, s), tx);
      assert tx in l.pool;
    }
    TaggedRunHere(l.st.loc, cfg.shards, s, packed);
    var tagged := TaggedAll(l.st.loc, cfg.shards, s, packed);
    forall tx | tx in tagged ensures Routed(l.st.loc, cfg.shards, s, tx) {
      var i :| 0 <= i < |tagged| && tagged[i] == tx;
      assert packed[i] in packed;
      TaggedIs(l.st.loc, cfg.shards, s, packed, i);
    }
  }

  lemma StepRouted(cfg: Cfg, sys: Sys, act: Action, s: Shard)
    requires Inv(cfg, sys) && Enabled(cfg, sys, act) && s < cfg.shards && ProposalRouted(cfg, sys.shards[s], s)
    ensures s < |Next(cfg, sys, act).shards| && ProposalRouted(cfg, Next(cfg, sys, act).shards[s], s)
  {
    assert LeaderOk(cfg, sys, s);
    hide LeaderOk, MsgOk, Unheard, NoClash;
    match act
    case Propose(t, moved) => if t == s && !sys.shards[s].meta.ready { ProposedRouted(cfg, s, sys.shards[s]); }
    case Commit(t) =>
    case _ =>
  }

  /**
   * In every run a proposed block holds payments between two accounts of the shard, first legs whose recipients are
   * placed elsewhere, and second legs whose recipients are placed here.
   */
  lemma {:induction false} ProposalsAreRouted(cfg: Cfg, acts: seq<Action>, sys: Sys, s: Shard)
    requires Reaches(cfg, acts, sys) && s < cfg.shards
    ensures s < |sys.shards| && ProposalRouted(cfg, sys.shards[s], s)
  {
    if acts != [] {
      var most, last := acts[..|acts| - 1], acts[|acts| - 1];
      assert acts == most + [last];
      var mid := LastStep(cfg, acts, most, last, sys);
      ProposalsAreRouted(cfg, most, mid, s);
      StepRouted(cfg, mid, last, s);
    }
  }

  lemma {:induction false} StagesShareOut(txs: seq<Tx>)
    ensures multiset(Pick(txs, OfStage(Undetermined))) + multiset(Pick(txs, OfStage(Relay1))) + multiset(Pick(txs, OfStage(Relay2))) == multiset(txs)
  {
    forall tx ensures (multiset(Pick(txs, OfStage(Undetermined))) + multiset(Pick(txs, OfStage(Relay1))) + multiset(Pick(txs, OfStage(Relay2))))[tx]
                      == multiset(txs)[tx]
    {
      PickCounts(txs, OfStage(Undetermined), tx);
      PickCounts(txs, OfStage(Relay1), tx);
      PickCounts(txs, OfStage(Relay2), tx);
    }
  }

  /**
   * Every committed transaction block is reported once, first of all, with the shard's epoch. The three lists of the
   * report share out the block: payments that stay here, first legs that leave, second legs that arrive.
   */
  lemma CommitIsReported(cfg: Cfg, acts: seq<Action>, sys: Sys, s: Shard)
    requires Reaches(cfg, acts, sys) && s < cfg.shards && s < |sys.shards|
    requires sys.shards[s].proposal.Some? && sys.shards[s].proposal.value.TxContent?
    ensures Enabled(cfg, sys, Commit(s)) && |sys.net| < |Next(cfg, sys, Commit(s)).net|
    ensures var n, loc := cfg.shards, sys.shards[s].st.loc;
            var net', report := Next(cfg, sys, Commit(s)).net, Next(cfg, sys, Commit(s)).net[|sys.net|];
            && report.BlockInfo? && report.shard == s && report.epoch == sys.shards[s].epoch
            && multiset(report.inner) + multiset(report.r1) + multiset(report.r2) == multiset(sys.shards[s].proposal.value.txs)
            && (forall tx :: tx in report.inner ==> LocOf(loc, tx.body.sender, n) == LocOf(loc, tx.body.recipient, n) == s)
            && (forall tx :: tx in report.r1 ==> LocOf(loc, tx.body.sender, n) == s != LocOf(loc, tx.body.recipient, n))
            && (forall tx :: tx in report.r2 ==> tx.stage == Relay2 && LocOf(loc, tx.body.recipient, n) == s)
            && (forall m :: m in net'[|sys.net| + 1..] ==> m.ReceiveTxs?)
  {
    ProposalsExecute(cfg, acts, sys, s);
    ProposalsAreRouted(cfg, acts, sys, s);
    var txs := sys.shards[s].proposal.value.txs;
    var r1 := Pick(txs, OfStage(Relay1));
    StagesShareOut(txs);
    forall tx, stage | tx in Pick(txs, OfStage(stage)) ensures tx in txs && tx.stage == stage {
      PickMembers(txs, OfStage(stage), tx);
    }
    var lists := ByShard(Relay2Legs(r1), RecipientShard(sys.shards[s].st.loc, cfg.shards), cfg.shards);
    DeliveriesAre(lists);
    assert Next(cfg, sys, Commit(s)).net[|sys.net| + 1..] == Deliveries(lists);
  }

  lemma LegIsSent(cfg: Cfg, s: Shard, l: Leader, txs: seq<Tx>, tx: Tx) returns (m: Msg)
    requires cfg.shards > 0 && Applied(l.st, cfg.shards, s, TxContent(txs)).Some? && tx in txs && tx.stage == Relay1
    requires forall a :: a in l.st.loc ==> l.st.loc[a] < cfg.shards
    ensures m in CommitTxs(cfg, s, l, txs).out && m.ReceiveTxs? && tx.(stage := Relay2) in m.txs
    ensures m.to == LocOf(l.st.loc, tx.body.recipient, cfg.shards)
  {
    var r1 := Pick(txs, OfStage(Relay1));
    PickMembers(txs, OfStage(Relay1), tx);
    LegsAreFiled(r1, l.st.loc, cfg.shards);
    var lists := ByShard(Relay2Legs(r1), RecipientShard(l.st.loc, cfg.shards), cfg.shards);
    var d := LocOf(l.st.loc, tx.body.recipient, cfg.shards);
    DeliveryMembers(lists, d);
    m := ReceiveTxs(d, lists[d]);
    assert CommitTxs(cfg, s, l, txs).out[1..] == Deliveries(lists);
  }

  /** Every committed first leg sends its second leg, and to another shard than the one that committed it. */
  lemma LegsLeave(cfg: Cfg, acts: seq<Action>, sys: Sys, s: Shard, tx: Tx) returns (m: Msg)
    requires Reaches(cfg, acts, sys) && s < cfg.shards && s < |sys.shards|
    requires sys.shards[s].proposal.Some? && sys.shards[s].proposal.value.TxContent?
    requires tx in sys.shards[s].proposal.value.txs && tx.stage == Relay1
    ensures Sends(cfg, sys, Commit(s), m, tx.(stage := Relay2))
    ensures m.to == LocOf(sys.shards[s].st.loc, tx.body.recipient, cfg.shards) && m.to != s
  {
    var l := sys.shards[s];
    ProposalsExecute(cfg, acts, sys, s);
    ProposalsAreRouted(cfg, acts, sys, s);
    assert Routed(l.st.loc, cfg.shards, s, tx);
    RunKeepsInv(cfg, acts);
    assert LeaderOk(cfg, sys, s) && LocationsAt(cfg, sys, s);
    hide LeaderOk, MsgOk, Unheard, NoClash, CommitTxs, Applied, LocOf, Routed;
    m := LegIsSent(cfg, s, l, l.proposal.value.txs, tx);
    assert Next(cfg, sys, Commit(s)).net[|sys.net|..] == CommitTxs(cfg, s, l, l.proposal.value.txs).out;
  }

  // ----------------------------------------------------------------- arriving within an epoch

  /** Within an epoch the supervisor's placement of an account does not change. */
  lemma StepKeepsPlace(cfg: Cfg, sys: Sys, act: Action, a: Acct)
    requires Inv(cfg, sys) && Enabled(cfg, sys, act) && Next(cfg, sys, act).sup.epoch == sys.sup.epoch
    ensures LocOf(Next(cfg, sys, act).sup.part, a, cfg.shards) == LocOf(sys.sup.part, a, cfg.shards)
  {
    hide LeaderOk, MsgOk, Unheard, NoClash;
  }

  lemma {:induction false} RunKeepsPlace(cfg: Cfg, acts: seq<Action>, more: seq<Action>, sys: Sys, sys': Sys, a: Acct)
    requires Reaches(cfg, acts, sys) && Reaches(cfg, acts + more, sys') && sys'.sup.epoch == sys.sup.epoch
    ensures LocOf(sys'.sup.part, a, cfg.shards) == LocOf(sys.sup.part, a, cfg.shards)
  {
    if more == [] {
      assert acts + more == acts;
    } else {
      var most, last := more[..|more| - 1], more[|more| - 1];
      assert acts + more == (acts + most) + [last];
      var mid := LastStep(cfg, acts + more, acts + most, last, sys');
      RunKeepsEpochs(cfg, acts, most, sys, mid, 0);
      StepKeepsEpochs(cfg, mid, last, 0);
      hide Reaches, Enabled, Next, Inv, LocOf;
      RunKeepsPlace(cfg, acts, most, sys, mid, a);
      StepKeepsPlace(cfg, mid, last, a);
    }
  }

  /** Once the supervisor is synced, every shard stays out of migration and by the supervisor's placement to the end of the epoch. */
  lemma SettledUntilNextEpoch(cfg: Cfg, acts: seq<Action>, more: seq<Action>, sys: Sys, sys': Sys, s: Shard, a: Acct)
    requires Reaches(cfg, acts, sys) && Reaches(cfg, acts + more, sys') && EpochSynced(sys.sup) && sys'.sup.epoch == sys.sup.epoch
    requires s < cfg.shards
    ensures s < |sys'.shards| && !sys'.shards[s].meta.ready
    ensures LocOf(sys'.shards[s].st.loc, a, cfg.shards) == LocOf(sys.sup.part, a, cfg.shards)
  {
    RunKeepsInv(cfg, acts);
    RunKeepsInv(cfg, acts + more);
    SyncedMeansOver(cfg, sys);
    RunKeepsEpochs(cfg, acts, more, sys, sys', s);
    EpochBarrier(cfg, acts + more, sys', s);
    RunKeepsPlace(cfg, acts, more, sys, sys', a);
    assert LeaderOk(cfg, sys, s) && LeaderOk(cfg, sys', s) && MetaAt(cfg, sys', s);
    OldMapOrNewMap(cfg, acts + more, sys', s);
  }

  /** What a leader holds of a second leg after a proposal attempt: still pooled, or in the block. */
  lemma LegIsPacked(cfg: Cfg, s: Shard, l: Leader, tx: Tx)
    requires cfg.shards > 0 && TxsOk(cfg, l.pool) && l.proposal.None?
    requires tx.stage == Relay2 && LocOf(l.st.loc, tx.body.recipient, cfg.shards) == s
    ensures var e := ProposeTxs(cfg, s, l);
            && (forall m :: m in e.out && m.ReceiveTxs? ==> tx !in m.txs)
            && (e.leader.proposal.Some? ==>
                  e.leader.proposal.value.TxContent? &&
                  multiset(e.leader.proposal.value.txs)[tx] + multiset(e.leader.pool)[tx] == multiset(l.pool)[tx])
  {
    var here, elsewhere := IsHere(l.st.loc, cfg.shards, s), Elsewhere(l.st.loc, cfg.shards, s);
    var k := PackCount(l.pool, cfg.blockSize, here);
    var packed := Pick(l.pool[..k], here);
    var e := ProposeTxs(cfg, s, l);
    forall m | m in e.out && m.ReceiveTxs? ensures tx !in m.txs {
      if tx in m.txs { FiledThere(l.pool[..k], elsewhere, cfg.shards, m, tx); }
    }
    assert l.pool == l.pool[..k] + l.pool[k..];
    PickCounts(l.pool[..k], here, tx);
    forall x | x in packed ensures TxOk(cfg, x) && Local(l.st.loc, cfg.shards, s, x) {
      PickMembers(l.pool[..k], here, x);
      assert x in l.pool;
    }
    TaggingKeepsLegs(l.st.loc, cfg.shards, s, packed, tx);
  }

  lemma {:induction false} TaggingKeepsLegs(loc: map<Acct, Shard>, n: nat, s: Shard, txs: seq<Tx>, tx: Tx)
    requires n > 0 && tx.stage == Relay2
    requires forall x :: x in txs ==> Coherent(x) && Local(loc, n, s, x) && x.stage != Relay1
    ensures multiset(TaggedAll(loc, n, s, txs))[tx] == multiset(txs)[tx]
  {
    if txs != [] {
      var most, last := txs[..|txs| - 1], txs[|txs| - 1];
      assert txs == most + [last] && last in txs;
      TaggingKeepsLegs(loc, n, s, most, tx);
      TaggedOne(loc, n, s, last);
    }
  }

  /**
   * A second leg that a commit sends while the supervisor is synced is, for the rest of the epoch, where its recipient
   * is placed: whenever its shard attempts a proposal, the leg is not forwarded, and if there is a block, each copy of
   * the leg is either in it or still pooled.
   */
  lemma SecondLegIsHome(cfg: Cfg, acts: seq<Action>, more: seq<Action>, sys: Sys, sys': Sys, s: Shard, m: Msg, tx: Tx)
    requires Reaches(cfg, acts, sys) && EpochSynced(sys.sup) && Sends(cfg, sys, Commit(s), m, tx)
    requires Reaches(cfg, acts + more, sys') && sys'.sup.epoch == sys.sup.epoch
    ensures tx.stage == Relay2 && m.to < |sys'.shards|
    ensures var l := sys'.shards[m.to];
            && LocOf(l.st.loc, tx.body.recipient, cfg.shards) == m.to
            && (l.proposal.None? ==> forall moved :: var e := LeaderPropose(cfg, m.to, l, moved);
                  && (forall msg :: msg in e.out && msg.ReceiveTxs? ==> tx !in msg.txs)
                  && (e.leader.proposal.Some? ==>
                        e.leader.proposal.value.TxContent? &&
                        multiset(e.leader.proposal.value.txs)[tx] + multiset(e.leader.pool)[tx] == multiset(l.pool)[tx]))
  {
    RunKeepsInv(cfg, acts + more);
    SentIsAimed(cfg, sys, Commit(s), m, tx);
    if sys.shards[s].proposal.value.TxContent? { CommittedLeg(cfg, s, sys.shards[s], sys.shards[s].proposal.value.txs, m, tx); }
    LocationAgreement(cfg, acts, sys, s, tx.body.recipient);
    SettledUntilNextEpoch(cfg, acts, more, sys, sys', m.to, tx.body.recipient);
    assert LeaderOk(cfg, sys', m.to);
    if sys'.shards[m.to].proposal.None? { LegIsPacked(cfg, m.to, sys'.shards[m.to], tx); }
  }

  /** An injected transaction goes to the shard that has its sender, and is never forwarded from there in this epoch. */
  lemma InjectedIsHome(cfg: Cfg, acts: seq<Action>, more: seq<Action>, sys: Sys, sys': Sys, txs: seq<Tx>, m: Msg, tx: Tx)
    requires Reaches(cfg, acts, sys) && Sends(cfg, sys, Inject(txs), m, tx)
    requires Reaches(cfg, acts + more, sys') && sys'.sup.epoch == sys.sup.epoch
    ensures tx in txs && m.to < |sys'.shards|
    ensures var l := sys'.shards[m.to];
            && LocOf(l.st.loc, tx.body.sender, cfg.shards) == m.to
            && forall moved, msg :: msg in LeaderPropose(cfg, m.to, l, moved).out && msg.ReceiveTxs? ==> tx !in msg.txs
  {
    FiledThere(txs, SenderShard(sys.sup.part, cfg.shards), cfg.shards, m, tx);
    SentIsAimed(cfg, sys, Inject(txs), m, tx);
    SettledUntilNextEpoch(cfg, acts, more, sys, sys', m.to, tx.body.sender);
    var l := sys'.shards[m.to];
    var k := PackCount(l.pool, cfg.blockSize, IsHere(l.st.loc, cfg.shards, m.to));
    forall moved, msg | msg in LeaderPropose(cfg, m.to, l, moved).out && msg.ReceiveTxs? ensures tx !in msg.txs {
      if tx in msg.txs { FiledThere(l.pool[..k], Elsewhere(l.st.loc, cfg.shards, m.to), cfg.shards, msg, tx); }
    }
  }
}
