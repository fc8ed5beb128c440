/** The invariant of the dynamic-sharding protocol and its preservation by every step. */
module ShardingInvariant {
  import opened Prelude
  import opened Accounts
  import opened Transactions
  import opened Execute
  import opened Chain
  import opened Migration
  import opened RelayOps
  import opened Sharding
  import opened Pool = TxPool

  // ------------------------------------------------------------------- vocabulary

  /** The placement the supervisor has announced, and the one before it. */
  function Now(cfg: Cfg, sys: Sys, a: Acct): Shard
    requires cfg.shards > 0
  {
    LocOf(sys.sup.part, a, cfg.shards)
  }

  function Before(cfg: Cfg, sys: Sys, a: Acct): Shard
    requires cfg.shards > 0
  {
    LocOf(sys.prev, a, cfg.shards)
  }

  /** The accounts that move in the current epoch, with their destinations. */
  function Moving(cfg: Cfg, sys: Sys): map<Acct, Shard>
    requires cfg.shards > 0
  {
    Difference(cfg.shards, sys.prev, sys.sup.part)
  }

  /** The shard has committed the migration block of the current epoch. */
  predicate Arrived(sys: Sys, s: Shard)
    requires s < |sys.shards|
  {
    sys.shards[s].epoch == sys.sup.epoch
  }

  /** The shard has sent its migrating accounts, or has finished the epoch altogether. */
  predicate Frozen(sys: Sys, s: Shard)
    requires s < |sys.shards|
  {
    sys.shards[s].snapped || Arrived(sys, s)
  }

  /** The states that src owes to dst in the current epoch. */
  function Owed(cfg: Cfg, sys: Sys, src: Shard, dst: Shard): States
    requires cfg.shards > 0 && src < |sys.shards|
  {
    map a | a in Moving(cfg, sys) && Before(cfg, sys, a) == src && Moving(cfg, sys)[a] == dst :: Read(sys.shards[src].st.db, a)
  }

  // -------------------------------------------------------------------- invariants

  predicate TxOk(cfg: Cfg, tx: Tx) {
    Coherent(tx) && tx.stage != Relay1 && tx.Sender() < cfg.accounts && tx.Recipient() < cfg.accounts
  }

  ghost predicate TxsOk(cfg: Cfg, txs: seq<Tx>) {
    forall tx :: tx in txs ==> TxOk(cfg, tx)
  }

  ghost predicate Shape(cfg: Cfg, sys: Sys) {
    && cfg.shards > 0
    && |sys.shards| == cfg.shards && |sys.sup.shardEpoch| == cfg.shards
    && (forall a :: a in sys.sup.part ==> sys.sup.part[a] < cfg.shards)
    && (forall a :: a in sys.prev ==> sys.prev[a] < cfg.shards)
    && sys.prev.Keys <= sys.sup.part.Keys
    && (sys.sup.synced ==> forall s :: 0 <= s < cfg.shards ==> sys.sup.shardEpoch[s] == sys.sup.epoch)
    && (forall d, s :: 0 <= d < cfg.shards && 0 <= s < cfg.shards && Arrived(sys, d) ==> Frozen(sys, s))
  }

  /** Epoch barrier: reported <= chain <= metadata <= supervisor <= reported + 1. */
  predicate BarrierAt(sys: Sys, s: Shard)
    requires s < |sys.shards| && s < |sys.sup.shardEpoch|
  {
    sys.sup.shardEpoch[s] <= sys.shards[s].epoch <= sys.shards[s].meta.epoch <= sys.sup.epoch <= sys.sup.shardEpoch[s] + 1
  }

  ghost predicate LocationsAt(cfg: Cfg, sys: Sys, s: Shard)
    requires cfg.shards > 0 && s < |sys.shards|
  {
    && (forall a :: a in sys.shards[s].st.loc ==> sys.shards[s].st.loc[a] < cfg.shards)
    && (forall a: Acct :: LocOf(sys.shards[s].st.loc, a, cfg.shards) == if Arrived(sys, s) then Now(cfg, sys, a) else Before(cfg, sys, a))
  }

  /** A migration message is for the current epoch, from a frozen shard, complete, and still wanted. */
  ghost predicate MigrationOk(cfg: Cfg, sys: Sys, m: MigrationMsg)
    requires cfg.shards > 0
  {
    && m.epoch == sys.sup.epoch
    && 0 <= m.src < |sys.shards| && 0 <= m.dest < |sys.shards|
    && Frozen(sys, m.src)
    && !Arrived(sys, m.dest)
    && m.states == Owed(cfg, sys, m.src, m.dest)
  }

  ghost predicate MetaAt(cfg: Cfg, sys: Sys, s: Shard)
    requires cfg.shards > 0 && s < |sys.shards|
  {
    var meta := sys.shards[s].meta;
    && (meta.ready <==> sys.shards[s].epoch < meta.epoch)
    && (meta.ready ==> meta.modified == Moving(cfg, sys))
    && (forall src :: src in meta.collected ==>
          meta.ready && 0 <= src < |sys.shards| && Frozen(sys, src) && meta.collected[src] == Owed(cfg, sys, src, s))
    && (forall e, i :: e in meta.early && 0 <= i < |meta.early[e]| ==>
          meta.early[e][i].epoch == e && meta.early[e][i].dest == s && e > meta.epoch && MigrationOk(cfg, sys, meta.early[e][i]))
    && (sys.shards[s].snapped ==> meta.ready && (s in meta.collected || OwnOnItsWay(sys, s)))
  }

  ghost predicate OwnOnItsWay(sys: Sys, s: Shard) {
    exists i :: 0 <= i < |sys.net| && IsOwnMigration(sys.net[i], s)
  }

  ghost predicate ProposalAt(cfg: Cfg, sys: Sys, s: Shard)
    requires cfg.shards > 0 && s < |sys.shards|
  {
    var l := sys.shards[s];
    match l.proposal
    case None => true
    case Some(TxContent(txs)) =>
      && !l.snapped
      && AllRunHere(txs, LocationsInTxs(l.st.loc, cfg.shards, txs), s)
      && Applied(l.st, cfg.shards, s, TxContent(txs)).Some?
      && (forall tx :: tx in txs ==> tx.Sender() < cfg.accounts && tx.Recipient() < cfg.accounts)
    case Some(MigrationContent(moved)) =>
      && l.meta.ready
      && (forall src :: 0 <= src < cfg.shards ==> src in l.meta.collected)
      && IsMerge(l.meta, moved)
  }

  ghost predicate LeaderOk(cfg: Cfg, sys: Sys, s: Shard)
    requires cfg.shards > 0 && s < |sys.shards| && s < |sys.sup.shardEpoch|
  {
    && BarrierAt(sys, s)
    && LocationsAt(cfg, sys, s)
    && MetaAt(cfg, sys, s)
    && ProposalAt(cfg, sys, s)
    && TxsOk(cfg, sys.shards[s].pool)
    && NoEmptyAccount(sys.shards[s].st.db)
  }

  ghost predicate MsgOk(cfg: Cfg, sys: Sys, m: Msg)
    requires cfg.shards > 0
  {
    match m
    case ReceiveTxs(to, txs) => to < |sys.shards| && TxsOk(cfg, txs)
    case RepartitionStart(to, epoch, modified) =>
      to < |sys.shards| && epoch == sys.sup.epoch == sys.shards[to].meta.epoch + 1 && modified == Moving(cfg, sys)
    case AccountMigration(mm) => MigrationOk(cfg, sys, mm)
    case BlockInfo(s, epoch, inner, r1, r2) => s < |sys.shards| && epoch <= sys.shards[s].epoch
  }

  /** Two messages that may not be under way together. */
  predicate Clash(m: Msg, n: Msg) {
    || (m.RepartitionStart? && n.RepartitionStart? && m.to == n.to)
    || (m.AccountMigration? && n.AccountMigration? && m.m.src == n.m.src && m.m.dest == n.m.dest)
  }

  ghost predicate NoClash(net: seq<Msg>) {
    forall i, j :: 0 <= i < j < |net| ==> !Clash(net[i], net[j])
  }

  /** A migration message under way has not been received before. */
  ghost predicate Unheard(sys: Sys, m: Msg) {
    m.AccountMigration? && 0 <= m.m.dest < |sys.shards| ==>
      var meta := sys.shards[m.m.dest].meta;
      m.m.src !in meta.collected &&
      forall i :: 0 <= i < |Early(meta, m.m.epoch)| ==> Early(meta, m.m.epoch)[i].src != m.m.src
  }

  ghost predicate Inv(cfg: Cfg, sys: Sys) {
    && Shape(cfg, sys)
    && (forall s :: 0 <= s < cfg.shards ==> LeaderOk(cfg, sys, s))
    && (forall i :: 0 <= i < |sys.net| ==> MsgOk(cfg, sys, sys.net[i]) && Unheard(sys, sys.net[i]))
    && NoClash(sys.net)
  }

  // ------------------------------------------------------------ carrying facts over

  /**
   * The new state is in the same epoch with the same placements, and everything a frozen shard owes is as it was.
   */
  ghost predicate Carries(cfg: Cfg, sys: Sys, sys': Sys)
    requires cfg.shards > 0
  {
    && |sys'.shards| == |sys.shards|
    && sys'.sup.epoch == sys.sup.epoch
    && Moving(cfg, sys') == Moving(cfg, sys)
    && (forall a: Acct :: Now(cfg, sys', a) == Now(cfg, sys, a) && Before(cfg, sys', a) == Before(cfg, sys, a))
    && (forall s :: 0 <= s < |sys.shards| && Frozen(sys, s) ==> Frozen(sys', s))
    && (forall s, d :: 0 <= s < |sys.shards| && 0 <= d < |sys.shards| && Frozen(sys, s) ==> Owed(cfg, sys', s, d) == Owed(cfg, sys, s, d))
  }

  lemma MigrationCarries(cfg: Cfg, sys: Sys, sys': Sys, m: MigrationMsg)
    requires cfg.shards > 0 && Carries(cfg, sys, sys') && MigrationOk(cfg, sys, m)
    requires 0 <= m.dest < |sys'.shards| && !Arrived(sys', m.dest)
    ensures MigrationOk(cfg, sys', m)
  {
  }

  /** A leader that a step does not touch stays in order, as long as its own message is still there. */
  lemma LeaderCarries(cfg: Cfg, sys: Sys, sys': Sys, s: Shard)
    requires Shape(cfg, sys) && s < cfg.shards && LeaderOk(cfg, sys, s)
    requires Carries(cfg, sys, sys') && |sys'.sup.shardEpoch| == cfg.shards
    requires sys'.shards[s] == sys.shards[s]
    requires sys.sup.shardEpoch[s] <= sys'.sup.shardEpoch[s] <= sys.shards[s].epoch
    requires OwnOnItsWay(sys, s) ==> OwnOnItsWay(sys', s)
    ensures LeaderOk(cfg, sys', s)
  {
    var meta := sys.shards[s].meta;
    assert MetaAt(cfg, sys, s);
    forall e, i | e in meta.early && 0 <= i < |meta.early[e]|
      ensures MigrationOk(cfg, sys', meta.early[e][i])
    {
      MigrationCarries(cfg, sys, sys', meta.early[e][i]);
    }
    assert Arrived(sys, s) <==> Arrived(sys', s);
  }

  lemma MsgCarries(cfg: Cfg, sys: Sys, sys': Sys, m: Msg)
    requires cfg.shards > 0 && Carries(cfg, sys, sys') && MsgOk(cfg, sys, m)
    requires m.RepartitionStart? ==> sys'.shards[m.to].meta.epoch == sys.shards[m.to].meta.epoch
    requires m.AccountMigration? ==> !Arrived(sys', m.m.dest)
    requires m.BlockInfo? ==> sys.shards[m.shard].epoch <= sys'.shards[m.shard].epoch
    ensures MsgOk(cfg, sys', m)
  {
  }

  lemma NoClashWithout(net: seq<Msg>, i: nat)
    requires i < |net| && NoClash(net)
    ensures NoClash(Without(net, i))
    ensures forall j :: 0 <= j < |net| && j != i ==> !Clash(net[i], net[j])
  {
    var rest := Without(net, i);
    forall j, k | 0 <= j < k < |rest| ensures !Clash(rest[j], rest[k]) {
      var j', k' := if j < i then j else j + 1, if k < i then k else k + 1;
      assert rest[j] == net[j'] && rest[k] == net[k'];
    }
  }

  lemma StillThere(net: seq<Msg>, i: nat, k: nat)
    requires i < |net| && k < |net| && k != i
    ensures net[k] in Without(net, i)
    ensures exists j :: 0 <= j < |Without(net, i)| && Without(net, i)[j] == net[k]
  {
    var rest := Without(net, i);
    assert rest[if k < i then k else k - 1] == net[k];
  }

  lemma InitHolds(cfg: Cfg)
    requires cfg.shards > 0
    ensures Inv(cfg, Init(cfg))
  {
    var sys := Init(cfg);
    forall s | 0 <= s < cfg.shards ensures LeaderOk(cfg, sys, s) {
      assert sys.shards[s] == InitialLeader();
    }
  }
}
