/** What the invariant means for whole runs of the dynamic-sharding protocol. */
module ShardingTheorems {
  import opened Prelude
  import opened Accounts
  import opened Transactions
  import opened Execute
  import opened Chain
  import opened Migration
  import opened RelayOps
  import opened Sharding
  import opened ShardingInvariant
  import opened ShardingSteps
  import opened Conservation
  import opened TxCounts

  /** The states that some run reaches. */
  ghost predicate Reaches(cfg: Cfg, acts: seq<Action>, sys: Sys) {
    cfg.shards > 0 && Run(cfg, acts) == Some(sys)
  }

  // ------------------------------------------------------------------- epoch barrier

  /** For every shard: reported epoch <= chain epoch <= metadata epoch <= supervisor epoch <= reported + 1. */
  lemma EpochBarrier(cfg: Cfg, acts: seq<Action>, sys: Sys, s: Shard)
    requires Reaches(cfg, acts, sys) && s < cfg.shards
    ensures |sys.shards| == |sys.sup.shardEpoch| == cfg.shards
    ensures sys.sup.shardEpoch[s] <= sys.shards[s].epoch <= sys.shards[s].meta.epoch <= sys.sup.epoch <= sys.sup.shardEpoch[s] + 1
  {
    RunKeepsInv(cfg, acts);
    assert LeaderOk(cfg, sys, s);
  }

  /** In whatever order messages are handled, a start is never refused and a migration message is never out of date. */
  lemma NothingIsRefused(cfg: Cfg, acts: seq<Action>, sys: Sys, i: nat)
    requires Reaches(cfg, acts, sys) && i < |sys.net|
    ensures match sys.net[i]
            case RepartitionStart(to, epoch, modified) =>
              to < |sys.shards| && StartEpoch(sys.shards[to].meta, cfg.shards, to, epoch, modified).Some?
            case AccountMigration(m) =>
              0 <= m.dest < |sys.shards| && Accepts(sys.shards[m.dest].meta, cfg.shards, m.dest, m)
            case _ => true
  {
    RunKeepsInv(cfg, acts);
    assert MsgOk(cfg, sys, sys.net[i]);
    match sys.net[i]
    case RepartitionStart(_, _, _) => DeliverStart(cfg, sys, i);
    case AccountMigration(_) => DeliverMigration(cfg, sys, i);
    case _ =>
  }

  /** A migration block is committed only with one message from every shard, each frozen and each heard in full. */
  lemma MigrationNeedsEverybody(cfg: Cfg, acts: seq<Action>, sys: Sys, s: Shard, t: Shard)
    requires Reaches(cfg, acts, sys) && s < |sys.shards| && t < cfg.shards
    requires sys.shards[s].proposal.Some? && sys.shards[s].proposal.value.MigrationContent?
    ensures t < |sys.shards| && Frozen(sys, t)
    ensures t in sys.shards[s].meta.collected && sys.shards[s].meta.collected[t] == Owed(cfg, sys, t, s)
    ensures sys.shards[s].meta.epoch == sys.sup.epoch == sys.shards[s].epoch + 1
  {
    RunKeepsInv(cfg, acts);
    AllHeard(cfg, sys, s, sys.shards[s].proposal.value.moved);
    assert LeaderOk(cfg, sys, s) && ProposalAt(cfg, sys, s) && MetaAt(cfg, sys, s);
  }

  // -------------------------------------------------------------- location agreement

  /**
   * Every shard has the complete old placement or the complete new one, never a mixture, and it has the new one
   * exactly when it has committed the epoch's migration block.
   */
  lemma OldMapOrNewMap(cfg: Cfg, acts: seq<Action>, sys: Sys, s: Shard)
    requires Reaches(cfg, acts, sys) && s < |sys.shards|
    ensures Arrived(sys, s) ==> forall a: Acct :: LocOf(sys.shards[s].st.loc, a, cfg.shards) == Now(cfg, sys, a)
    ensures !Arrived(sys, s) ==> forall a: Acct :: LocOf(sys.shards[s].st.loc, a, cfg.shards) == Before(cfg, sys, a)
  {
    RunKeepsInv(cfg, acts);
    assert LeaderOk(cfg, sys, s);
  }

  /** When the supervisor considers the epoch synced, every shard agrees with it on every account. */
  lemma LocationAgreement(cfg: Cfg, acts: seq<Action>, sys: Sys, s: Shard, a: Acct)
    requires Reaches(cfg, acts, sys) && s < |sys.shards| && EpochSynced(sys.sup)
    ensures LocOf(sys.shards[s].st.loc, a, cfg.shards) == LocOf(sys.sup.part, a, cfg.shards)
    ensures forall i :: 0 <= i < |sys.net| ==> !sys.net[i].RepartitionStart? && !sys.net[i].AccountMigration?
  {
    RunKeepsInv(cfg, acts);
    SyncedMeansOver(cfg, sys);
    OldMapOrNewMap(cfg, acts, sys, s);
  }

  // ---------------------------------------------------------------- blocks that commit

  /** A transaction proposal always executes on commit, and never skips a transaction as foreign. */
  lemma ProposalsExecute(cfg: Cfg, acts: seq<Action>, sys: Sys, s: Shard)
    requires Reaches(cfg, acts, sys) && s < |sys.shards|
    requires sys.shards[s].proposal.Some? && sys.shards[s].proposal.value.TxContent?
    ensures var txs := sys.shards[s].proposal.value.txs;
            && Applied(sys.shards[s].st, cfg.shards, s, TxContent(txs)).Some?
            && AllRunHere(txs, LocationsInTxs(sys.shards[s].st.loc, cfg.shards, txs), s)
  {
    RunKeepsInv(cfg, acts);
    assert LeaderOk(cfg, sys, s) && ProposalAt(cfg, sys, s);
  }

  lemma TouchedIsLocal(cfg: Cfg, sys: Sys, s: Shard, tx: Tx, a: Acct)
    requires cfg.shards > 0 && s < |sys.shards| && ProposalAt(cfg, sys, s)
    requires sys.shards[s].proposal.Some? && sys.shards[s].proposal.value.TxContent?
    requires tx in sys.shards[s].proposal.value.txs
    ensures tx.Debits(a) || tx.Credits(a) ==> LocOf(sys.shards[s].st.loc, a, cfg.shards) == s
  {
    var txs := sys.shards[s].proposal.value.txs;
    var i :| 0 <= i < |txs| && txs[i] == tx;
    assert RunsHere(txs[i], LocationsInTxs(sys.shards[s].st.loc, cfg.shards, txs), s);
  }

  /** Single ownership: what a proposal debits or credits is held by the proposing shard and by no other. */
  lemma TouchedIsHeld(cfg: Cfg, acts: seq<Action>, sys: Sys, s: Shard, tx: Tx, a: Acct)
    requires Reaches(cfg, acts, sys) && s < |sys.shards|
    requires sys.shards[s].proposal.Some? && sys.shards[s].proposal.value.TxContent?
    requires tx in sys.shards[s].proposal.value.txs && (tx.Debits(a) || tx.Credits(a))
    ensures Shape(cfg, sys) && Holder(cfg, sys, a) == s
  {
    RunKeepsInv(cfg, acts);
    assert LeaderOk(cfg, sys, s);
    TouchedIsLocal(cfg, sys, s, tx, a);
    LocalIsHeld(cfg, sys, s, a);
  }

  /** From its snapshot until its new owner commits, no proposal anywhere debits or credits a migrating account. */
  lemma MigratingIsUntouched(cfg: Cfg, acts: seq<Action>, sys: Sys, s: Shard, tx: Tx, a: Acct)
    requires Reaches(cfg, acts, sys) && s < |sys.shards|
    requires sys.shards[s].proposal.Some? && sys.shards[s].proposal.value.TxContent?
    requires tx in sys.shards[s].proposal.value.txs
    ensures Shape(cfg, sys)
    ensures a in Moving(cfg, sys) && Frozen(sys, Before(cfg, sys, a)) && !Arrived(sys, Now(cfg, sys, a)) ==>
              !tx.Debits(a) && !tx.Credits(a)
  {
    RunKeepsInv(cfg, acts);
    assert LeaderOk(cfg, sys, s) && LocationsAt(cfg, sys, s);
    TouchedIsLocal(cfg, sys, s, tx, a);
  }

  // ------------------------------------------------------------------- exact migration

  /** The account is migrating and its old owner is frozen. */
  ghost predicate Resting(cfg: Cfg, sys: Sys, a: Acct) {
    Inv(cfg, sys) && a in Moving(cfg, sys) && Frozen(sys, Before(cfg, sys, a))
  }

  ghost predicate StillResting(cfg: Cfg, sys: Sys, sys': Sys, a: Acct) {
    && Resting(cfg, sys, a) && Resting(cfg, sys', a)
    && Held(cfg, sys', a) == Held(cfg, sys, a)
    && Now(cfg, sys', a) == Now(cfg, sys, a) && Before(cfg, sys', a) == Before(cfg, sys, a)
  }

  lemma RestingOn(cfg: Cfg, sys: Sys, mid: Sys, sys': Sys, a: Acct)
    requires StillResting(cfg, sys, mid, a) && StillResting(cfg, mid, sys', a)
    ensures StillResting(cfg, sys, sys', a)
  {
  }

  /** No chain, epoch or placement changed, and frozen shards stay frozen. */
  lemma QuietKeepsFrozen(cfg: Cfg, sys: Sys, sys': Sys, a: Acct)
    requires Resting(cfg, sys, a) && Inv(cfg, sys') && Carries(cfg, sys, sys')
    requires forall s :: 0 <= s < cfg.shards ==> sys'.shards[s].st == sys.shards[s].st && sys'.shards[s].epoch == sys.shards[s].epoch
    ensures StillResting(cfg, sys, sys', a)
  {
    hide LeaderOk, MsgOk, Unheard, NoClash;
  }

  /** A step that commits nothing and starts no epoch leaves chains, epochs and debts alone. */
  lemma UncommittedCarries(cfg: Cfg, sys: Sys, act: Action)
    requires Inv(cfg, sys) && Enabled(cfg, sys, act) && !act.Commit? && !act.Repartition?
    ensures Carries(cfg, sys, Next(cfg, sys, act))
    ensures forall s :: 0 <= s < cfg.shards ==>
              var l := Next(cfg, sys, act).shards[s]; l.st == sys.shards[s].st && l.epoch == sys.shards[s].epoch
  {
    var sys' := Next(cfg, sys, act);
    hide LeaderOk, MsgOk, Unheard, NoClash;
    match act {
      case Info(i) => InformedCarries(cfg, sys, i);
      case Deliver(i) => QuietCarries(cfg, sys, sys', Recipient(sys.net[i]).value);
      case Propose(s, moved) => QuietCarries(cfg, sys, sys', s);
      case Inject(_) =>
    }
  }

  lemma UncommittedKeepsFrozen(cfg: Cfg, sys: Sys, act: Action, a: Acct)
    requires Resting(cfg, sys, a) && Enabled(cfg, sys, act) && Inv(cfg, Next(cfg, sys, act)) && !act.Commit?
    requires Next(cfg, sys, act).sup.epoch == sys.sup.epoch
    ensures StillResting(cfg, sys, Next(cfg, sys, act), a)
  {
    UncommittedCarries(cfg, sys, act);
    hide Inv, Carries, StillResting, Enabled;
    QuietKeepsFrozen(cfg, sys, Next(cfg, sys, act), a);
  }

  /** One step leaves the state of a frozen migrating account as it is, whoever holds it afterwards. */
  lemma StepKeepsFrozen(cfg: Cfg, sys: Sys, act: Action, a: Acct)
    requires Resting(cfg, sys, a) && Enabled(cfg, sys, act) && Inv(cfg, Next(cfg, sys, act))
    requires Next(cfg, sys, act).sup.epoch == sys.sup.epoch
    requires !Arrived(sys, Now(cfg, sys, a))
    ensures StillResting(cfg, sys, Next(cfg, sys, act), a)
  {
    hide LeaderOk, MsgOk, Unheard, NoClash, StillResting;
    if act.Commit? {
      CommitKeepsFrozen(cfg, sys, act.s, a);
    } else {
      UncommittedKeepsFrozen(cfg, sys, act, a);
    }
  }

  lemma CommitKeepsFrozen(cfg: Cfg, sys: Sys, s: Shard, a: Acct)
    requires Inv(cfg, sys) && s < cfg.shards && sys.shards[s].proposal.Some?
    requires Inv(cfg, Apply(sys, s, LeaderCommit(cfg, s, sys.shards[s])))
    requires a in Moving(cfg, sys) && Frozen(sys, Before(cfg, sys, a)) && !Arrived(sys, Now(cfg, sys, a))
    ensures StillResting(cfg, sys, Apply(sys, s, LeaderCommit(cfg, s, sys.shards[s])), a)
  {
    hide LeaderOk, MsgOk, Unheard, NoClash;
    match sys.shards[s].proposal.value
    case TxContent(txs) =>
      CommitTxsCarries(cfg, sys, s, txs);
      if s == Before(cfg, sys, a) { OwedUntouched(cfg, sys, s, txs, a); }
    case MigrationContent(moved) =>
      CommitMigrationHeld(cfg, sys, s, moved, a);
      CommitMigrationCarries(cfg, sys, s, moved);
  }

  /** Epochs never go back. */
  lemma StepKeepsEpochs(cfg: Cfg, sys: Sys, act: Action, s: Shard)
    requires Inv(cfg, sys) && Enabled(cfg, sys, act) && s < cfg.shards
    ensures var sys' := Next(cfg, sys, act);
            sys.sup.epoch <= sys'.sup.epoch && |sys'.shards| == cfg.shards && sys.shards[s].epoch <= sys'.shards[s].epoch
  {
    assert LeaderOk(cfg, sys, s);
  }

  /** The last step of a run. */
  lemma LastStep(cfg: Cfg, acts: seq<Action>, most: seq<Action>, last: Action, sys': Sys) returns (mid: Sys)
    requires Reaches(cfg, acts, sys') && acts == most + [last]
    ensures Reaches(cfg, most, mid) && Enabled(cfg, mid, last) && Next(cfg, mid, last) == sys'
    ensures Inv(cfg, mid) && Inv(cfg, sys')
  {
    hide Enabled, Next, Inv;
    assert acts[..|acts| - 1] == most;
    mid := Run(cfg, most).value;
    RunKeepsInv(cfg, most);
    RunKeepsInv(cfg, acts);
  }

  lemma {:induction false} RunKeepsEpochs(cfg: Cfg, acts: seq<Action>, more: seq<Action>, sys: Sys, sys': Sys, s: Shard)
    requires Reaches(cfg, acts, sys) && Reaches(cfg, acts + more, sys') && s < cfg.shards
    ensures |sys.shards| == |sys'.shards| == cfg.shards
    ensures sys.sup.epoch <= sys'.sup.epoch && sys.shards[s].epoch <= sys'.shards[s].epoch
  {
    if more == [] {
      assert acts + more == acts;
      EpochBarrier(cfg, acts, sys, s);
    } else {
      var most, last := more[..|more| - 1], more[|more| - 1];
      assert acts + more == (acts + most) + [last];
      var mid := LastStep(cfg, acts + more, acts + most, last, sys');
      hide Reaches, Inv, Enabled, Next;
      RunKeepsEpochs(cfg, acts, most, sys, mid, s);
      StepKeepsEpochs(cfg, mid, last, s);
    }
  }

  lemma RestingStill(cfg: Cfg, acts: seq<Action>, sys: Sys, sys': Sys, a: Acct)
    requires Reaches(cfg, acts, sys) && Reaches(cfg, acts, sys') && Resting(cfg, sys, a)
    ensures StillResting(cfg, sys, sys', a)
  {
    assert sys == sys';
  }

  lemma RestingFrom(cfg: Cfg, sys: Sys, mid: Sys, a: Acct)
    requires StillResting(cfg, sys, mid, a)
    ensures Resting(cfg, mid, a) && cfg.shards > 0 && Now(cfg, mid, a) == Now(cfg, sys, a)
  {
  }

  /** The same over any stretch of a run that stays within the epoch. */
  lemma {:induction false} RunKeepsFrozen(cfg: Cfg, acts: seq<Action>, more: seq<Action>, sys: Sys, sys': Sys, a: Acct, d: Shard)
    requires Reaches(cfg, acts, sys) && Reaches(cfg, acts + more, sys')
    requires Resting(cfg, sys, a) && d == Now(cfg, sys, a) && d < cfg.shards == |sys'.shards|
    requires sys'.sup.epoch == sys.sup.epoch && !Arrived(sys', d)
    ensures StillResting(cfg, sys, sys', a)
  {
    hide Reaches, Enabled, Next, Inv, Resting, StillResting, Now, Moving;
    if more == [] {
      assert acts + more == acts;
      RestingStill(cfg, acts, sys, sys', a);
    } else {
      var most, last := more[..|more| - 1], more[|more| - 1];
      assert acts + more == (acts + most) + [last];
      var mid := LastStep(cfg, acts + more, acts + most, last, sys');
      NotArrivedBefore(cfg, acts, most, sys, mid, sys', last, d);
      RunKeepsFrozen(cfg, acts, most, sys, mid, a, d);
      RestingFrom(cfg, sys, mid, a);
      StepKeepsFrozen(cfg, mid, last, a);
      RestingOn(cfg, sys, mid, sys', a);
    }
  }

  lemma NotArrivedBefore(cfg: Cfg, acts: seq<Action>, most: seq<Action>, sys: Sys, mid: Sys, sys': Sys, last: Action, d: Shard)
    requires Reaches(cfg, acts, sys) && Reaches(cfg, acts + most, mid)
    requires Inv(cfg, mid) && Enabled(cfg, mid, last) && Next(cfg, mid, last) == sys'
    requires d < cfg.shards == |sys'.shards|
    requires sys'.sup.epoch == sys.sup.epoch && !Arrived(sys', d)
    ensures mid.sup.epoch == sys.sup.epoch && d < cfg.shards == |mid.shards| && !Arrived(mid, d)
  {
    RunKeepsEpochs(cfg, acts, most, sys, mid, d);
    EpochBarrier(cfg, acts + most, mid, d);
    StepKeepsEpochs(cfg, mid, last, d);
    StepEpochBarrier(cfg, mid, last, d);
  }

  lemma StepEpochBarrier(cfg: Cfg, sys: Sys, act: Action, s: Shard)
    requires Inv(cfg, sys) && Enabled(cfg, sys, act) && s < cfg.shards
    ensures var sys' := Next(cfg, sys, act); |sys'.shards| == cfg.shards && sys'.shards[s].epoch <= sys'.sup.epoch
  {
    StepKeepsInv(cfg, sys, act);
    hide Next, Enabled;
    assert LeaderOk(cfg, Next(cfg, sys, act), s);
  }

  lemma CommittedState(cfg: Cfg, sys: Sys, s: Shard, a: Acct)
    requires Inv(cfg, sys) && s < |sys.shards|
    requires sys.shards[s].proposal.Some? && sys.shards[s].proposal.value.MigrationContent?
    requires a in Moving(cfg, sys) && Now(cfg, sys, a) == s && Before(cfg, sys, a) < |sys.shards|
    ensures Enabled(cfg, sys, Commit(s)) && s < |Next(cfg, sys, Commit(s)).shards|
    ensures var db := Next(cfg, sys, Commit(s)).shards[s].st.db;
            a in db && db[a] == Read(sys.shards[Before(cfg, sys, a)].st.db, a)
    ensures !Arrived(sys, s) && Before(cfg, sys, a) != s
  {
    hide MsgOk, Unheard, NoClash, LeaderOk;
    var moved := sys.shards[s].proposal.value.moved;
    AllHeard(cfg, sys, s, moved);
    InstalledState(cfg, sys, s, moved, a);
  }

  /**
   * Migration moves each account exactly: whatever happens between the snapshot of its old owner and the commit of
   * its new owner, the new owner installs the very state (balance and nonce) that was there at the snapshot.
   */
  lemma MigrationIsExact(cfg: Cfg, acts: seq<Action>, more: seq<Action>, sys: Sys, sys': Sys, s: Shard, a: Acct)
    requires Reaches(cfg, acts, sys) && Reaches(cfg, acts + more, sys')
    requires Resting(cfg, sys, a) && Now(cfg, sys, a) == s < |sys'.shards| == cfg.shards
    requires sys'.sup.epoch == sys.sup.epoch
    requires sys'.shards[s].proposal.Some? && sys'.shards[s].proposal.value.MigrationContent?
    ensures Enabled(cfg, sys', Commit(s)) && s < |Next(cfg, sys', Commit(s)).shards|
    ensures var db := Next(cfg, sys', Commit(s)).shards[s].st.db;
            a in db && db[a] == Read(sys.shards[Before(cfg, sys, a)].st.db, a)
    ensures Before(cfg, sys, a) != s
  {
    RunKeepsInv(cfg, acts + more);
    hide MsgOk, Unheard, NoClash, LeaderOk, Enabled, Next;
    AllHeard(cfg, sys', s, sys'.shards[s].proposal.value.moved);
    RunKeepsEpochs(cfg, acts, more, sys, sys', s);
    RunKeepsFrozen(cfg, acts, more, sys, sys', a, s);
    CommittedState(cfg, sys', s, a);
  }

  /** Among the accounts of a migration block, exactly those that come to this shard were sent to it. */
  lemma NobodyIsMissing(cfg: Cfg, acts: seq<Action>, sys: Sys, s: Shard, a: Acct)
    requires Reaches(cfg, acts, sys) && s < |sys.shards|
    requires sys.shards[s].proposal.Some? && sys.shards[s].proposal.value.MigrationContent?
    requires a in sys.shards[s].meta.modified
    ensures (exists src :: src in sys.shards[s].meta.collected && a in sys.shards[s].meta.collected[src])
            <==> sys.shards[s].meta.modified[a] == s
  {
    RunKeepsInv(cfg, acts);
    assert LeaderOk(cfg, sys, s) && ProposalAt(cfg, sys, s) && MetaAt(cfg, sys, s);
    forall src | src in sys.shards[s].meta.collected ensures sys.shards[s].meta.collected[src] == Owed(cfg, sys, src, s) {
    }
    var src := Before(cfg, sys, a);
    assert src in sys.shards[s].meta.collected;
  }

  /** Whatever order the collected maps are merged in, the migration block is the same. */
  lemma MergeIsDetermined(cfg: Cfg, acts: seq<Action>, sys: Sys, s: Shard, x: map<Acct, Migrated>, y: map<Acct, Migrated>)
    requires Reaches(cfg, acts, sys) && s < |sys.shards|
    requires IsMerge(sys.shards[s].meta, x) && IsMerge(sys.shards[s].meta, y)
    ensures x == y
  {
    RunKeepsInv(cfg, acts);
    assert LeaderOk(cfg, sys, s) && MetaAt(cfg, sys, s);
    var meta := sys.shards[s].meta;
    forall t, u, a | t in meta.collected && u in meta.collected && a in meta.collected[t] && a in meta.collected[u]
      ensures meta.collected[t][a] == meta.collected[u][a]
    {
      assert meta.collected[t] == Owed(cfg, sys, t, s) && meta.collected[u] == Owed(cfg, sys, u, s);
    }
    MergeIsUnique(meta, x, y);
  }

  /** A shard that still has to send its accounts never has one that moves to itself. */
  lemma NobodyMovesHome(cfg: Cfg, acts: seq<Action>, sys: Sys, s: Shard, a: Acct)
    requires Reaches(cfg, acts, sys) && s < |sys.shards| && sys.shards[s].meta.ready
    requires a in sys.shards[s].meta.modified && LocOf(sys.shards[s].st.loc, a, cfg.shards) == s
    ensures sys.shards[s].meta.modified[a] != s && sys.shards[s].meta.modified[a] < cfg.shards
  {
    RunKeepsInv(cfg, acts);
    assert LeaderOk(cfg, sys, s) && MetaAt(cfg, sys, s) && LocationsAt(cfg, sys, s);
  }

  // ------------------------------------------------------------------- money in bounds

  /** All value in transit is non-negative. */
  lemma TransitIsNonNegative(cfg: Cfg, sys: Sys)
    requires Inv(cfg, sys)
    ensures Transit(sys) >= 0
  {
    forall m | m in sys.net ensures InMsg(Relay2Value)(m) >= 0 {
      var i :| 0 <= i < |sys.net| && sys.net[i] == m;
      assert MsgOk(cfg, sys, sys.net[i]);
      if m.ReceiveTxs? { SeqSumNonNegative(m.txs, Relay2Value); }
    }
    SeqSumNonNegative(sys.net, InMsg(Relay2Value));
    forall l | l in sys.shards ensures AtLeader(Relay2Value)(l) >= 0 {
      var s :| 0 <= s < |sys.shards| && sys.shards[s] == l;
      assert LeaderOk(cfg, sys, s);
      SeqSumNonNegative(l.pool, Relay2Value);
      ProposalIsNonNegative(cfg, sys, s);
    }
    SeqSumNonNegative(sys.shards, AtLeader(Relay2Value));
  }

  lemma ProposalIsNonNegative(cfg: Cfg, sys: Sys, s: Shard)
    requires cfg.shards > 0 && s < |sys.shards| && ProposalAt(cfg, sys, s)
    ensures InProposal(sys.shards[s].proposal, Relay2Value) >= 0
  {
    match sys.shards[s].proposal
    case Some(TxContent(txs)) =>
      forall tx | tx in txs ensures Relay2Value(tx) >= 0 {
        var i :| 0 <= i < |txs| && txs[i] == tx;
        assert RunsHere(txs[i], LocationsInTxs(sys.shards[s].st.loc, cfg.shards, txs), s);
      }
      SeqSumNonNegative(txs, Relay2Value);
    case _ =>
  }

  /**
   * No account holds more than all the money there is, so 256-bit balances cannot wrap as long as the initial
   * money and what drained accounts received anew stay below 2^256.
   */
  lemma BalancesAreBounded(cfg: Cfg, acts: seq<Action>, sys: Sys, a: Acct)
    requires Reaches(cfg, acts, sys) && a < cfg.accounts
    ensures Shape(cfg, sys) && Held(cfg, sys, a).balance <= NORMAL_INIT_BALANCE * cfg.accounts + sys.minted
    ensures NORMAL_INIT_BALANCE * cfg.accounts + sys.minted < UINT256_LIMIT ==> FitsUInt256(Held(cfg, sys, a).balance)
  {
    MoneyIsConserved(cfg, acts);
    TransitIsNonNegative(cfg, sys);
    SumBounds(Balances(cfg, sys), cfg.accounts, a);
    assert Balances(cfg, sys)(a) == Held(cfg, sys, a).balance;
  }

  /** The total is what it was at the beginning if and only if as much has been minted as burned. */
  lemma TotalIsConstant(cfg: Cfg, acts: seq<Action>, sys: Sys)
    requires Reaches(cfg, acts, sys)
    ensures Shape(cfg, sys) && (Total(cfg, sys) == NORMAL_INIT_BALANCE * cfg.accounts <==> sys.burned == sys.minted)
  {
    MoneyIsConserved(cfg, acts);
  }
}
