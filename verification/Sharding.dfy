/** The dynamic-sharding protocol: shard leaders, the supervisor, a reordering network, and their steps. */
module Sharding {
  import opened Prelude
  import opened Accounts
  import opened Transactions
  import opened Execute
  import opened Chain
  import opened Migration
  import opened RelayOps
  import opened Pool = TxPool

  /** accounts bounds the addresses in use; 2^160 for 20-byte addresses. */
  datatype Cfg = Cfg(shards: nat, blockSize: nat, accounts: nat)

  /** A shard leader. snapped is history: the migrating accounts of this epoch have been sent. */
  datatype Leader = Leader(
    st: State,
    epoch: int,
    meta: Meta,
    pool: seq<Tx>,
    proposal: Option<Content>,
    snapped: bool)

  datatype Supervisor = Supervisor(epoch: int, synced: bool, shardEpoch: seq<int>, part: map<Acct, Shard>)

  datatype Msg =
    | ReceiveTxs(to: Shard, txs: seq<Tx>)
    | RepartitionStart(to: Shard, epoch: int, modified: map<Acct, Shard>)
    | AccountMigration(m: MigrationMsg)
    | BlockInfo(shard: Shard, epoch: int, inner: seq<Tx>, r1: seq<Tx>, r2: seq<Tx>)

  /** net is a bag: any message in it may be handled next. prev, burned and minted are history. */
  datatype Sys = Sys(
    sup: Supervisor,
    prev: map<Acct, Shard>,
    net: seq<Msg>,
    shards: seq<Leader>,
    burned: int,
    minted: int)

  // ------------------------------------------------------------------- one leader

  /** What a leader step leaves behind. */
  datatype Effect = Effect(leader: Leader, out: seq<Msg>, burned: int, minted: int)

  /** Transaction lists on their way; empty lists are not sent. */
  function Deliveries(lists: seq<seq<Tx>>): seq<Msg> {
    if lists == [] then [] else
    var last := lists[|lists| - 1];
    Deliveries(lists[..|lists| - 1]) + if last == [] then [] else [ReceiveTxs(|lists| - 1, last)]
  }

  function OutMsgs(st: State, shardNum: nat, self: Shard, epoch: int, modified: map<Acct, Shard>): seq<Msg>
    requires shardNum > 0
  {
    seq(shardNum, d requires 0 <= d < shardNum => AccountMigration(OutMsg(st, shardNum, self, epoch, modified, d)))
  }

  function LeaderReceive(cfg: Cfg, self: Shard, l: Leader, msg: Msg): Leader {
    match msg
    case ReceiveTxs(_, txs) => l.(pool := l.pool + txs)
    case RepartitionStart(_, epoch, modified) =>
      (match StartEpoch(l.meta, cfg.shards, self, epoch, modified)
       case None => l
       case Some(meta) => l.(meta := meta))
    case AccountMigration(m) => l.(meta := Collect(l.meta, cfg.shards, self, m))
    case BlockInfo(_, _, _, _, _) => l
  }

  /** A transaction proposal. When its preview overdrafts, what was packed is gone. */
  ghost function ProposeTxs(cfg: Cfg, self: Shard, l: Leader): Effect
    requires cfg.shards > 0
  {
    var k := PackCount(l.pool, cfg.blockSize, IsHere(l.st.loc, cfg.shards, self));
    var packed := Pick(l.pool[..k], IsHere(l.st.loc, cfg.shards, self));
    var forwarded := ByShard(l.pool[..k], Elsewhere(l.st.loc, cfg.shards, self), cfg.shards);
    var content := TxContent(TaggedAll(l.st.loc, cfg.shards, self, packed));
    var rest := l.(pool := l.pool[k..]);
    if Applied(l.st, cfg.shards, self, content).Some?
    then Effect(rest.(proposal := Some(content)), Deliveries(forwarded), 0, 0)
    else Effect(rest, Deliveries(forwarded), SeqSum(packed, Relay2Value), 0)
  }

  /** Send the migrating accounts and the pooled transactions that wait for them, once per epoch. */
  function SendAccounts(cfg: Cfg, self: Shard, l: Leader): (Leader, seq<Msg>)
    requires cfg.shards > 0
  {
    if self in l.meta.collected then (l, []) else
    var taken := l.pool[..Min(MIGRATED_TX_NUM, |l.pool|)];
    (l.(snapped := true, pool := l.pool[|taken|..] + Pick(taken, Stays(l.meta.modified))),
     OutMsgs(l.st, cfg.shards, self, l.meta.epoch, l.meta.modified) +
     Deliveries(ByShard(taken, MovesTo(l.meta.modified), cfg.shards)))
  }

  /** The migration block is proposed only when every shard has been heard. */
  function ProposeMigration(cfg: Cfg, self: Shard, l: Leader, moved: map<Acct, Migrated>): Effect
    requires cfg.shards > 0
  {
    var (sent, out) := SendAccounts(cfg, self, l);
    Effect(if |sent.meta.collected| == cfg.shards then sent.(proposal := Some(MigrationContent(moved))) else sent, out, 0, 0)
  }

  ghost function LeaderPropose(cfg: Cfg, self: Shard, l: Leader, moved: map<Acct, Migrated>): Effect
    requires cfg.shards > 0
  {
    if l.meta.ready then ProposeMigration(cfg, self, l, moved) else ProposeTxs(cfg, self, l)
  }

  ghost function CommitTxs(cfg: Cfg, self: Shard, l: Leader, txs: seq<Tx>): Effect
    requires cfg.shards > 0
  {
    var done := l.(proposal := None);
    match Applied(l.st, cfg.shards, self, TxContent(txs))
    case None => Effect(done, [], 0, 0)
    case Some(st) =>
      var db := TxsResult(l.st.db, LocationsInTxs(l.st.loc, cfg.shards, txs), self, txs).value;
      var r1 := Pick(txs, OfStage(Relay1));
      Effect(done.(st := st),
        [BlockInfo(self, l.epoch, Pick(txs, OfStage(Undetermined)), r1, Pick(txs, OfStage(Relay2)))] +
        Deliveries(ByShard(Relay2Legs(r1), RecipientShard(st.loc, cfg.shards), cfg.shards)),
        0, NORMAL_INIT_BALANCE * |Drained(db)|)
  }

  ghost function CommitMigration(cfg: Cfg, self: Shard, l: Leader, moved: map<Acct, Migrated>): Effect
    requires cfg.shards > 0
  {
    Effect(l.(st := Applied(l.st, cfg.shards, self, MigrationContent(moved)).value,
              epoch := l.meta.epoch, meta := ResetMeta(l.meta), proposal := None, snapped := false), [], 0, 0)
  }

  ghost function LeaderCommit(cfg: Cfg, self: Shard, l: Leader): Effect
    requires cfg.shards > 0 && l.proposal.Some?
  {
    match l.proposal.value
    case TxContent(txs) => CommitTxs(cfg, self, l, txs)
    case MigrationContent(moved) => CommitMigration(cfg, self, l, moved)
  }

  // ---------------------------------------------------------------- the supervisor

  predicate EpochSynced(s: Supervisor) {
    s.synced || forall i :: 0 <= i < |s.shardEpoch| ==> s.shardEpoch[i] == s.epoch
  }

  /** New vertices of the transaction graph sit at their default location. */
  function WithVertices(part: map<Acct, Shard>, shardNum: nat, accts: set<Acct>): map<Acct, Shard>
    requires shardNum > 0
  {
    (map a | a in accts :: DefaultAccountLoc(a, shardNum)) + part
  }

  function HandleInfo(cfg: Cfg, s: Supervisor, shard: Shard, epoch: int, inner: seq<Tx>, r2: seq<Tx>): Supervisor
    requires cfg.shards > 0
  {
    if shard >= |s.shardEpoch| then s else
    s.(shardEpoch := s.shardEpoch[shard := if s.shardEpoch[shard] < epoch then epoch else s.shardEpoch[shard]],
       part := WithVertices(s.part, cfg.shards, AccountsOf(inner + r2)))
  }

  /** What a repartition tells the shards: exactly the vertices that change place. */
  function Difference(shardNum: nat, old_: map<Acct, Shard>, new_: map<Acct, Shard>): map<Acct, Shard>
    requires shardNum > 0
  {
    map a | a in new_ && LocOf(old_, a, shardNum) != new_[a] :: new_[a]
  }

  function SenderShard(part: map<Acct, Shard>, shardNum: nat): Tx -> Option<Shard>
    requires shardNum > 0
  {
    (tx: Tx) => Some(LocOf(part, tx.Sender(), shardNum))
  }

  // --------------------------------------------------------------------- the steps

  datatype Action =
    | Inject(txs: seq<Tx>)
    | Repartition(placement: map<Acct, Shard>)
    | Info(i: nat)
    | Deliver(i: nat)
    | Propose(s: Shard, moved: map<Acct, Migrated>)
    | Commit(s: Shard)

  /** A fresh plain transfer, as the transaction source produces it. */
  predicate FreshTx(cfg: Cfg, tx: Tx) {
    tx.stage == Undetermined && tx.original == NoHash && tx.Sender() < cfg.accounts && tx.Recipient() < cfg.accounts
  }

  function Recipient(m: Msg): Option<int> {
    match m
    case ReceiveTxs(to, _) => Some(to)
    case RepartitionStart(to, _, _) => Some(to)
    case AccountMigration(mm) => Some(mm.dest)
    case BlockInfo(_, _, _, _, _) => None
  }

  ghost predicate Enabled(cfg: Cfg, sys: Sys, act: Action) {
    && cfg.shards > 0
    && match act
       case Inject(txs) => EpochSynced(sys.sup) && forall tx :: tx in txs ==> FreshTx(cfg, tx)
       case Repartition(placement) =>
         EpochSynced(sys.sup) && placement.Keys == sys.sup.part.Keys &&
         forall a :: a in placement ==> placement[a] < cfg.shards
       case Info(i) => i < |sys.net| && sys.net[i].BlockInfo?
       case Deliver(i) =>
         i < |sys.net| && Recipient(sys.net[i]).Some? && 0 <= Recipient(sys.net[i]).value < |sys.shards|
       case Propose(s, moved) =>
         // A leader drains its own buffer before it proposes, and messages to itself go straight there.
         && s < |sys.shards|
         && sys.shards[s].proposal.None?
         && (forall i :: 0 <= i < |sys.net| ==> !IsOwnMigration(sys.net[i], s))
         && (sys.shards[s].meta.ready && |sys.shards[s].meta.collected| == cfg.shards ==> IsMerge(sys.shards[s].meta, moved))
       case Commit(s) => s < |sys.shards| && sys.shards[s].proposal.Some?
  }

  predicate IsOwnMigration(m: Msg, s: Shard) {
    m.AccountMigration? && m.m.src == s && m.m.dest == s
  }

  function Apply(sys: Sys, s: Shard, e: Effect): Sys
    requires s < |sys.shards|
  {
    sys.(shards := sys.shards[s := e.leader], net := sys.net + e.out, burned := sys.burned + e.burned, minted := sys.minted + e.minted)
  }

  function Received(cfg: Cfg, sys: Sys, i: nat): Sys
    requires i < |sys.net| && Recipient(sys.net[i]).Some? && 0 <= Recipient(sys.net[i]).value < |sys.shards|
  {
    var s := Recipient(sys.net[i]).value;
    sys.(net := Without(sys.net, i), shards := sys.shards[s := LeaderReceive(cfg, s, sys.shards[s], sys.net[i])])
  }

  function Informed(cfg: Cfg, sys: Sys, i: nat): Sys
    requires cfg.shards > 0 && i < |sys.net| && sys.net[i].BlockInfo?
  {
    var m := sys.net[i];
    sys.(net := Without(sys.net, i), sup := HandleInfo(cfg, sys.sup, m.shard, m.epoch, m.inner, m.r2))
  }

  function Injected(cfg: Cfg, sys: Sys, txs: seq<Tx>): Sys
    requires cfg.shards > 0
  {
    sys.(sup := sys.sup.(synced := true),
         net := sys.net + Deliveries(ByShard(txs, SenderShard(sys.sup.part, cfg.shards), cfg.shards)))
  }

  function Starts(shards: nat, epoch: int, modified: map<Acct, Shard>): seq<Msg> {
    seq(shards, d requires 0 <= d < shards => RepartitionStart(d, epoch, modified))
  }

  function Repartitioned(cfg: Cfg, sys: Sys, placement: map<Acct, Shard>): Sys
    requires cfg.shards > 0
  {
    var epoch := sys.sup.epoch + 1;
    var modified := Difference(cfg.shards, sys.sup.part, placement);
    sys.(sup := Supervisor(epoch, false, sys.sup.shardEpoch, placement),
         prev := sys.sup.part,
         net := sys.net + Starts(cfg.shards, epoch, modified))
  }

  ghost function Next(cfg: Cfg, sys: Sys, act: Action): Sys
    requires Enabled(cfg, sys, act)
  {
    match act
    case Inject(txs) => Injected(cfg, sys, txs)
    case Repartition(placement) => Repartitioned(cfg, sys, placement)
    case Info(i) => Informed(cfg, sys, i)
    case Deliver(i) => Received(cfg, sys, i)
    case Propose(s, moved) => Apply(sys, s, LeaderPropose(cfg, s, sys.shards[s], moved))
    case Commit(s) => Apply(sys, s, LeaderCommit(cfg, s, sys.shards[s]))
  }

  function InitialLeader(): Leader {
    Leader(State(map[], map[]), 0, InitialMeta(), [], None, false)
  }

  function Init(cfg: Cfg): Sys {
    Sys(Supervisor(0, false, seq(cfg.shards, _ => 0), map[]), map[], [], seq(cfg.shards, _ => InitialLeader()), 0, 0)
  }

  /** The state after a whole run; None when a step is taken that is not enabled. */
  ghost function Run(cfg: Cfg, acts: seq<Action>): Option<Sys> {
    if acts == [] then Some(Init(cfg)) else
    match Run(cfg, acts[..|acts| - 1])
    case None => None
    case Some(sys) =>
      if Enabled(cfg, sys, acts[|acts| - 1]) then Some(Next(cfg, sys, acts[|acts| - 1])) else None
  }
}
