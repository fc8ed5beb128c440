/** Conservation of money over whole runs of the dynamic-sharding protocol. */
module Conservation {
  import opened Prelude
  import opened Accounts
  import opened Transactions
  import opened Execute
  import opened Chain
  import opened Migration
  import opened RelayOps
  import opened Sharding
  import opened ShardingInvariant
  import opened ShardingSteps
  import opened TxCounts
  import opened Pool = TxPool

  // ------------------------------------------------------------------ what is counted

  /** The one shard whose copy of the account counts: the new owner once it has arrived. */
  ghost function Holder(cfg: Cfg, sys: Sys, a: Acct): Shard
    requires Shape(cfg, sys)
  {
    if Arrived(sys, Now(cfg, sys, a)) then Now(cfg, sys, a) else Before(cfg, sys, a)
  }

  ghost function Held(cfg: Cfg, sys: Sys, a: Acct): AcctState
    requires Shape(cfg, sys)
  {
    Read(sys.shards[Holder(cfg, sys, a)].st.db, a)
  }

  ghost function Balances(cfg: Cfg, sys: Sys): nat -> int
    requires Shape(cfg, sys)
  {
    (a: nat) => Held(cfg, sys, a).balance
  }

  /** Value debited in one shard and not yet credited in another. */
  ghost function Transit(sys: Sys): int { InSystem(sys, Relay2Value) }

  ghost function Total(cfg: Cfg, sys: Sys): int
    requires Shape(cfg, sys)
  {
    Sum(Balances(cfg, sys), cfg.accounts) + Transit(sys)
  }

  /** The books balance: all money is where it is counted, except what an aborted block lost or a drained account got anew. */
  ghost predicate Books(cfg: Cfg, sys: Sys)
    requires Shape(cfg, sys)
  {
    Total(cfg, sys) + sys.burned == NORMAL_INIT_BALANCE * cfg.accounts + sys.minted && sys.burned >= 0
  }

  // -------------------------------------------------------------------- sums in transit

  lemma {:induction false} FreshTransit(cfg: Cfg, txs: seq<Tx>)
    requires forall tx :: tx in txs ==> FreshTx(cfg, tx)
    ensures SeqSum(txs, Relay2Value) == 0
  {
    if txs != [] {
      assert txs[|txs| - 1] in txs;
      FreshTransit(cfg, txs[..|txs| - 1]);
    }
  }

  /** The second legs of a block carry the value of its first legs. */
  lemma LegsValue(txs: seq<Tx>)
    ensures SeqSum(LegsOf(txs), Relay2Value) == SeqSum(txs, Relay1Value)
  {
    var r1 := Pick(txs, OfStage(Relay1));
    forall tx | tx in r1 ensures tx.stage == Relay1 {
      PickMembers(txs, OfStage(Relay1), tx);
    }
    LegsSum(r1);
    Relay1Picked(txs);
  }

  // ------------------------------------------------------------------ who holds what

  /** Nobody's chain state, epoch or placement changed: every account is held as before. */
  lemma SameHeld(cfg: Cfg, sys: Sys, sys': Sys)
    requires Shape(cfg, sys) && Shape(cfg, sys')
    requires sys'.sup.epoch == sys.sup.epoch
    requires forall a: Acct :: Now(cfg, sys', a) == Now(cfg, sys, a) && Before(cfg, sys', a) == Before(cfg, sys, a)
    requires forall s :: 0 <= s < cfg.shards ==> sys'.shards[s].st == sys.shards[s].st && sys'.shards[s].epoch == sys.shards[s].epoch
    ensures Sum(Balances(cfg, sys'), cfg.accounts) == Sum(Balances(cfg, sys), cfg.accounts)
  {
    SumAgree(Balances(cfg, sys'), Balances(cfg, sys), cfg.accounts);
  }

  /** A repartition makes the current owner of every account its previous owner, and nobody has arrived yet. */
  lemma RepartitionHeld(cfg: Cfg, sys: Sys, placement: map<Acct, Shard>)
    requires Inv(cfg, sys) && Enabled(cfg, sys, Repartition(placement))
    requires Shape(cfg, Repartitioned(cfg, sys, placement))
    ensures forall a :: Held(cfg, Repartitioned(cfg, sys, placement), a) == Held(cfg, sys, a)
  {
    SyncedMeansOver(cfg, sys);
    var sys' := Repartitioned(cfg, sys, placement);
    forall a: Acct ensures Held(cfg, sys', a) == Held(cfg, sys, a) {
      assert Arrived(sys, Now(cfg, sys, a));
      assert Before(cfg, sys', a) == Now(cfg, sys, a);
      assert sys'.shards[Now(cfg, sys', a)].epoch == sys.sup.epoch;
    }
  }

  /** A shard that can run transactions holds every account its location map places there. */
  lemma LocalIsHeld(cfg: Cfg, sys: Sys, s: Shard, a: Acct)
    requires Inv(cfg, sys) && s < cfg.shards && !sys.shards[s].snapped
    requires LocOf(sys.shards[s].st.loc, a, cfg.shards) == s
    ensures Holder(cfg, sys, a) == s
  {
    assert LeaderOk(cfg, sys, s) && LocationsAt(cfg, sys, s);
    var now := Now(cfg, sys, a);
    assert Arrived(sys, now) ==> Frozen(sys, s);
  }

  // ----------------------------------------------------------------- committed blocks

  /** What a transaction does to the sum of all balances in the shard that runs it. */
  function NetEffect(tx: Tx): int { Relay2Value(tx) - Relay1Value(tx) }

  lemma EffectsSumUp(n: nat, tx: Tx)
    requires tx.Sender() < n && tx.Recipient() < n
    ensures Sum((a: nat) => tx.Effect(a), n) == NetEffect(tx)
  {
    var zero := (a: nat) => 0;
    var debit := (a: nat) => if tx.Debits(a) then -tx.Value() else 0;
    var credit := (a: nat) => if tx.Credits(a) then tx.Value() else 0;
    SumConst(zero, 0, n);
    SumChangeAt(zero, debit, n, tx.Sender());
    SumChangeAt(zero, credit, n, tx.Recipient());
    SumPlus(debit, credit, (a: nat) => tx.Effect(a), n);
  }

  ghost function BlockEffect(txs: seq<Tx>): nat -> int {
    (a: nat) => SeqSum(txs, EffectOn(a))
  }

  lemma {:induction false} BlockEffectsSumUp(n: nat, txs: seq<Tx>)
    requires forall tx :: tx in txs ==> tx.Sender() < n && tx.Recipient() < n
    ensures Sum(BlockEffect(txs), n) == SeqSum(txs, Relay2Value) - SeqSum(txs, Relay1Value)
  {
    if txs == [] {
      SumConst(BlockEffect(txs), 0, n);
    } else {
      var most, last := txs[..|txs| - 1], txs[|txs| - 1];
      assert last in txs;
      BlockEffectsSumUp(n, most);
      EffectsSumUp(n, last);
      var g := (a: nat) => last.Effect(a);
      forall a: nat ensures BlockEffect(txs)(a) == BlockEffect(most)(a) + g(a) {
        assert txs == most + [last];
        SeqSumSnoc(most, last, EffectOn(a));
      }
      SumPlus(BlockEffect(most), g, BlockEffect(txs), n);
    }
  }

  function PerMember(s: set<nat>, c: int): nat -> int { (a: nat) => if a in s then c else 0 }

  /** Counting a set of accounts by a sum. */
  lemma {:induction false} SumOverSet(s: set<nat>, c: int, n: nat)
    requires forall a :: a in s ==> a < n
    ensures Sum(PerMember(s, c), n) == c * |s|
  {
    if n == 0 {
      assert s == {};
    } else {
      var rest := s - {n - 1};
      SumOverSet(rest, c, n - 1);
      SumAgree(PerMember(s, c), PerMember(rest, c), n - 1);
      if n - 1 in s { assert |s| == |rest| + 1; } else { assert s == rest; }
    }
  }

  /** An account the block does not name keeps its stored state. */
  lemma UnnamedUntouched(l: Leader, n: nat, s: Shard, txs: seq<Tx>, a: Acct)
    requires n > 0 && AllRunHere(txs, LocationsInTxs(l.st.loc, n, txs), s)
    requires TxsResult(l.st.db, LocationsInTxs(l.st.loc, n, txs), s, txs).Some?
    requires a !in AccountsOf(txs) || LocOf(l.st.loc, a, n) != s
    ensures var db := TxsResult(l.st.db, LocationsInTxs(l.st.loc, n, txs), s, txs).value;
            (a in db <==> a in l.st.db) && (a in db ==> db[a] == l.st.db[a])
  {
    BlockLeavesOthers(l.st.db, LocationsInTxs(l.st.loc, n, txs), s, txs, a);
  }

  /** Only accounts that the block names and that live here can be drained by it. */
  lemma DrainedAreLocal(cfg: Cfg, l: Leader, s: Shard, txs: seq<Tx>)
    requires cfg.shards > 0 && AllRunHere(txs, LocationsInTxs(l.st.loc, cfg.shards, txs), s)
    requires TxsResult(l.st.db, LocationsInTxs(l.st.loc, cfg.shards, txs), s, txs).Some?
    requires NoEmptyAccount(l.st.db)
    requires forall tx :: tx in txs ==> tx.Sender() < cfg.accounts && tx.Recipient() < cfg.accounts
    ensures var db := TxsResult(l.st.db, LocationsInTxs(l.st.loc, cfg.shards, txs), s, txs).value;
            forall a :: a in Drained(db) ==> a < cfg.accounts && LocOf(l.st.loc, a, cfg.shards) == s
  {
    var db := TxsResult(l.st.db, LocationsInTxs(l.st.loc, cfg.shards, txs), s, txs).value;
    AccountsInRange(txs, cfg.accounts);
    forall a | a in Drained(db) ensures a < cfg.accounts && LocOf(l.st.loc, a, cfg.shards) == s {
      if a !in AccountsOf(txs) || LocOf(l.st.loc, a, cfg.shards) != s {
        UnnamedUntouched(l, cfg.shards, s, txs, a);
      }
    }
  }

  /** One account over a committed transaction block: its effects, and a fresh start if they drain it. */
  lemma CommittedBalance(cfg: Cfg, sys: Sys, s: Shard, txs: seq<Tx>, a: Acct)
    requires Inv(cfg, sys) && s < cfg.shards && sys.shards[s].proposal == Some(TxContent(txs))
    requires Shape(cfg, Apply(sys, s, CommitTxs(cfg, s, sys.shards[s], txs)))
    ensures var sys' := Apply(sys, s, CommitTxs(cfg, s, sys.shards[s], txs));
            var db := TxsResult(sys.shards[s].st.db, LocationsInTxs(sys.shards[s].st.loc, cfg.shards, txs), s, txs);
            && db.Some?
            && Held(cfg, sys', a).balance == Held(cfg, sys, a).balance + SeqSum(txs, EffectOn(a))
                                           + (if a in Drained(db.value) then NORMAL_INIT_BALANCE else 0)
  {
    var l := sys.shards[s];
    assert LeaderOk(cfg, sys, s) && ProposalAt(cfg, sys, s);
    var sys' := Apply(sys, s, CommitTxs(cfg, s, l, txs));
    var addrLoc := LocationsInTxs(l.st.loc, cfg.shards, txs);
    var db := TxsResult(l.st.db, addrLoc, s, txs).value;
    assert Holder(cfg, sys', a) == Holder(cfg, sys, a);
    if LocOf(l.st.loc, a, cfg.shards) == s {
      LocalIsHeld(cfg, sys, s, a);
      BlockMovesItsEffects(l.st.db, addrLoc, s, txs, a);
      assert sys'.shards[s].st.db == Prune(db);
    } else {
      DrainedAreLocal(cfg, l, s, txs);
      UnnamedUntouched(l, cfg.shards, s, txs, a);
      NoEffectElsewhere(txs, addrLoc, s, a);
    }
  }

  lemma {:induction false} NoEffectElsewhere(txs: seq<Tx>, addrLoc: map<Acct, Shard>, s: Shard, a: Acct)
    requires AllRunHere(txs, addrLoc, s)
    requires a !in addrLoc || addrLoc[a] != s
    ensures SeqSum(txs, EffectOn(a)) == 0
  {
    if txs != [] {
      NoEffectElsewhere(txs[..|txs| - 1], addrLoc, s, a);
      assert RunsHere(txs[|txs| - 1], addrLoc, s);
    }
  }

  // ----------------------------------------------------------------------- the steps

  lemma CommitTxsBooks(cfg: Cfg, sys: Sys, s: Shard, txs: seq<Tx>)
    requires Inv(cfg, sys) && Books(cfg, sys) && s < cfg.shards && sys.shards[s].proposal == Some(TxContent(txs))
    requires Shape(cfg, Apply(sys, s, CommitTxs(cfg, s, sys.shards[s], txs)))
    ensures Books(cfg, Apply(sys, s, CommitTxs(cfg, s, sys.shards[s], txs)))
  {
    var l := sys.shards[s];
    var e := CommitTxs(cfg, s, l, txs);
    var sys' := Apply(sys, s, e);
    CommitTxsBalances(cfg, sys, s, txs);
    CommitCount(cfg, sys, s, Relay2Value);
    LegsValue(txs);
  }

  lemma CommitTxsBalances(cfg: Cfg, sys: Sys, s: Shard, txs: seq<Tx>)
    requires Inv(cfg, sys) && s < cfg.shards && sys.shards[s].proposal == Some(TxContent(txs))
    requires Shape(cfg, Apply(sys, s, CommitTxs(cfg, s, sys.shards[s], txs)))
    ensures var e := CommitTxs(cfg, s, sys.shards[s], txs);
            && e.burned == 0
            && Sum(Balances(cfg, Apply(sys, s, e)), cfg.accounts) == Sum(Balances(cfg, sys), cfg.accounts)
               + SeqSum(txs, Relay2Value) - SeqSum(txs, Relay1Value) + e.minted
  {
    var l := sys.shards[s];
    var sys' := Apply(sys, s, CommitTxs(cfg, s, l, txs));
    assert LeaderOk(cfg, sys, s) && ProposalAt(cfg, sys, s);
    var db := TxsResult(l.st.db, LocationsInTxs(l.st.loc, cfg.shards, txs), s, txs).value;
    DrainedAreLocal(cfg, l, s, txs);
    forall a: nat ensures Balances(cfg, sys')(a) == Balances(cfg, sys)(a) + BlockEffect(txs)(a) + PerMember(Drained(db), NORMAL_INIT_BALANCE)(a) {
      CommittedBalance(cfg, sys, s, txs, a);
    }
    SumThree(cfg.accounts, Balances(cfg, sys), BlockEffect(txs), PerMember(Drained(db), NORMAL_INIT_BALANCE), Balances(cfg, sys'));
    SumOverSet(Drained(db), NORMAL_INIT_BALANCE, cfg.accounts);
    BlockEffectsSumUp(cfg.accounts, txs);
  }

  lemma SumThree(n: nat, f: nat -> int, g: nat -> int, h: nat -> int, all: nat -> int)
    requires forall a: nat :: all(a) == f(a) + g(a) + h(a)
    ensures Sum(all, n) == Sum(f, n) + Sum(g, n) + Sum(h, n)
  {
    var fg := (a: nat) => f(a) + g(a);
    SumPlus(f, g, fg, n);
    SumPlus(fg, h, all, n);
  }

  /** The installed states are the ones the previous owners hold, so nothing changes hands but the holding. */
  lemma CommitMigrationHeld(cfg: Cfg, sys: Sys, s: Shard, moved: map<Acct, Migrated>, a: Acct)
    requires Inv(cfg, sys) && s < cfg.shards && sys.shards[s].proposal == Some(MigrationContent(moved))
    requires Shape(cfg, Apply(sys, s, CommitMigration(cfg, s, sys.shards[s], moved)))
    ensures Held(cfg, Apply(sys, s, CommitMigration(cfg, s, sys.shards[s], moved)), a) == Held(cfg, sys, a)
  {
    var l := sys.shards[s];
    var sys' := Apply(sys, s, CommitMigration(cfg, s, l, moved));
    AllHeard(cfg, sys, s, moved);
    MergedStates(cfg, sys, s, moved, a);
    assert LeaderOk(cfg, sys, s);
    if Now(cfg, sys, a) == s && a in moved {
      InstalledState(cfg, sys, s, moved, a);
    } else {
      InstallLeavesOthers(l.st.db, s, moved, a);
    }
  }

  /** The new owner installs exactly the last state the old owner had. */
  lemma InstalledState(cfg: Cfg, sys: Sys, s: Shard, moved: map<Acct, Migrated>, a: Acct)
    requires Inv(cfg, sys) && s < cfg.shards && sys.shards[s].proposal == Some(MigrationContent(moved))
    requires a in Moving(cfg, sys) && Now(cfg, sys, a) == s
    ensures Before(cfg, sys, a) < cfg.shards && Before(cfg, sys, a) != s
    ensures var sys' := Apply(sys, s, CommitMigration(cfg, s, sys.shards[s], moved));
            a in sys'.shards[s].st.db && sys'.shards[s].st.db[a] == Read(sys.shards[Before(cfg, sys, a)].st.db, a)
  {
    MergedStates(cfg, sys, s, moved, a);
    assert LeaderOk(cfg, sys, Before(cfg, sys, a));
  }

  lemma CommitMigrationBooks(cfg: Cfg, sys: Sys, s: Shard, moved: map<Acct, Migrated>)
    requires Inv(cfg, sys) && Books(cfg, sys) && s < cfg.shards && sys.shards[s].proposal == Some(MigrationContent(moved))
    requires Shape(cfg, Apply(sys, s, CommitMigration(cfg, s, sys.shards[s], moved)))
    ensures Books(cfg, Apply(sys, s, CommitMigration(cfg, s, sys.shards[s], moved)))
  {
    var e := CommitMigration(cfg, s, sys.shards[s], moved);
    var sys' := Apply(sys, s, e);
    forall a: nat ensures Balances(cfg, sys')(a) == Balances(cfg, sys)(a) {
      CommitMigrationHeld(cfg, sys, s, moved, a);
    }
    SumAgree(Balances(cfg, sys'), Balances(cfg, sys), cfg.accounts);
    ApplyCount(sys, s, e, Relay2Value);
  }

  /** What an aborted pack loses is the value in transit in it. */
  lemma ProposeTxsTransit(cfg: Cfg, s: Shard, l: Leader)
    requires s < cfg.shards && l.proposal.None? && TxsOk(cfg, l.pool)
    requires forall a :: a in l.st.loc ==> l.st.loc[a] < cfg.shards
    ensures var e := ProposeTxs(cfg, s, l);
            && AtLeader(Relay2Value)(e.leader) + SeqSum(e.out, InMsg(Relay2Value)) + e.burned == AtLeader(Relay2Value)(l)
            && e.burned >= 0 && e.minted == 0
  {
    var here, packed := IsHere(l.st.loc, cfg.shards, s), Packed(cfg, s, l);
    ProposeTxsCount(cfg, s, l, Relay2Value);
    forall tx | tx in packed ensures TxOk(cfg, tx) {
      PickMembers(l.pool[..PackCount(l.pool, cfg.blockSize, here)], here, tx);
    }
    SeqSumNonNegative(packed, Relay2Value);
  }

  lemma ProposeTxsBooks(cfg: Cfg, sys: Sys, s: Shard)
    requires Inv(cfg, sys) && Books(cfg, sys) && s < cfg.shards && sys.shards[s].proposal.None?
    requires Shape(cfg, Apply(sys, s, ProposeTxs(cfg, s, sys.shards[s])))
    ensures Books(cfg, Apply(sys, s, ProposeTxs(cfg, s, sys.shards[s])))
  {
    var e := ProposeTxs(cfg, s, sys.shards[s]);
    assert LeaderOk(cfg, sys, s) && LocationsAt(cfg, sys, s);
    hide MsgOk, Unheard, NoClash;
    ProposeTxsTransit(cfg, s, sys.shards[s]);
    SameHeld(cfg, sys, Apply(sys, s, e));
    ApplyCount(sys, s, e, Relay2Value);
  }

  lemma ProposeMigrationBooks(cfg: Cfg, sys: Sys, s: Shard, moved: map<Acct, Migrated>)
    requires Inv(cfg, sys) && Books(cfg, sys) && s < cfg.shards && sys.shards[s].proposal.None? && sys.shards[s].meta.ready
    requires Shape(cfg, Apply(sys, s, ProposeMigration(cfg, s, sys.shards[s], moved)))
    ensures Books(cfg, Apply(sys, s, ProposeMigration(cfg, s, sys.shards[s], moved)))
  {
    var l := sys.shards[s];
    var e := ProposeMigration(cfg, s, l, moved);
    assert LeaderOk(cfg, sys, s) && MetaAt(cfg, sys, s);
    assert l.meta.modified == Moving(cfg, sys);
    ProposeMigrationCount(cfg, s, l, moved, Relay2Value);
    SameHeld(cfg, sys, Apply(sys, s, e));
    ApplyCount(sys, s, e, Relay2Value);
  }

  lemma RepartitionBooks(cfg: Cfg, sys: Sys, placement: map<Acct, Shard>)
    requires Inv(cfg, sys) && Books(cfg, sys) && Enabled(cfg, sys, Repartition(placement))
    requires Shape(cfg, Repartitioned(cfg, sys, placement))
    ensures Books(cfg, Repartitioned(cfg, sys, placement))
  {
    var sys' := Repartitioned(cfg, sys, placement);
    RepartitionHeld(cfg, sys, placement);
    SumAgree(Balances(cfg, sys'), Balances(cfg, sys), cfg.accounts);
    RepartitionedCount(cfg, sys, placement, Relay2Value);
  }

  lemma InfoBooks(cfg: Cfg, sys: Sys, i: nat)
    requires Inv(cfg, sys) && Books(cfg, sys) && i < |sys.net| && sys.net[i].BlockInfo?
    requires Shape(cfg, Informed(cfg, sys, i))
    ensures Books(cfg, Informed(cfg, sys, i))
  {
    InformedCarries(cfg, sys, i);
    SameHeld(cfg, sys, Informed(cfg, sys, i));
    SeqSumWithout(sys.net, i, InMsg(Relay2Value));
  }

  lemma InjectBooks(cfg: Cfg, sys: Sys, txs: seq<Tx>)
    requires Inv(cfg, sys) && Books(cfg, sys) && Enabled(cfg, sys, Inject(txs))
    requires Shape(cfg, Injected(cfg, sys, txs))
    ensures Books(cfg, Injected(cfg, sys, txs))
  {
    InjectedCount(cfg, sys, txs, Relay2Value);
    FreshTransit(cfg, txs);
    SameHeld(cfg, sys, Injected(cfg, sys, txs));
  }

  lemma DeliverBooks(cfg: Cfg, sys: Sys, i: nat)
    requires Inv(cfg, sys) && Books(cfg, sys) && Enabled(cfg, sys, Deliver(i))
    requires Shape(cfg, Received(cfg, sys, i))
    ensures Books(cfg, Received(cfg, sys, i))
  {
    ReceivedCount(cfg, sys, i, Relay2Value);
    SameHeld(cfg, sys, Received(cfg, sys, i));
  }

  lemma ProposeBooks(cfg: Cfg, sys: Sys, s: Shard, moved: map<Acct, Migrated>)
    requires Inv(cfg, sys) && Books(cfg, sys) && s < |sys.shards| && sys.shards[s].proposal.None?
    requires Shape(cfg, Apply(sys, s, LeaderPropose(cfg, s, sys.shards[s], moved)))
    ensures Books(cfg, Apply(sys, s, LeaderPropose(cfg, s, sys.shards[s], moved)))
  {
    if sys.shards[s].meta.ready {
      ProposeMigrationBooks(cfg, sys, s, moved);
    } else {
      ProposeTxsBooks(cfg, sys, s);
    }
  }

  lemma CommitBooks(cfg: Cfg, sys: Sys, s: Shard)
    requires Inv(cfg, sys) && Books(cfg, sys) && s < |sys.shards| && sys.shards[s].proposal.Some?
    requires Shape(cfg, Apply(sys, s, LeaderCommit(cfg, s, sys.shards[s])))
    ensures Books(cfg, Apply(sys, s, LeaderCommit(cfg, s, sys.shards[s])))
  {
    match sys.shards[s].proposal.value
    case TxContent(txs) => CommitTxsBooks(cfg, sys, s, txs);
    case MigrationContent(moved) => CommitMigrationBooks(cfg, sys, s, moved);
  }

  lemma StepKeepsBooks(cfg: Cfg, sys: Sys, act: Action)
    requires Inv(cfg, sys) && Books(cfg, sys) && Enabled(cfg, sys, act)
    requires Shape(cfg, Next(cfg, sys, act))
    ensures Books(cfg, Next(cfg, sys, act))
  {
    hide LeaderOk, MsgOk, Unheard, NoClash, Books, LeaderPropose, LeaderCommit, Received, Informed, Injected, Repartitioned;
    match act
    case Inject(txs) => InjectBooks(cfg, sys, txs);
    case Repartition(placement) => RepartitionBooks(cfg, sys, placement);
    case Info(i) => InfoBooks(cfg, sys, i);
    case Deliver(i) => DeliverBooks(cfg, sys, i);
    case Propose(s, moved) => ProposeBooks(cfg, sys, s, moved);
    case Commit(s) => CommitBooks(cfg, sys, s);
  }

  lemma InitBooks(cfg: Cfg)
    requires cfg.shards > 0 && Shape(cfg, Init(cfg))
    ensures Books(cfg, Init(cfg))
  {
    var sys := Init(cfg);
    SumConst(Balances(cfg, sys), NORMAL_INIT_BALANCE, cfg.accounts);
    IdleLeaders(sys.shards);
  }

  lemma {:induction false} IdleLeaders(ls: seq<Leader>)
    requires forall i :: 0 <= i < |ls| ==> ls[i] == InitialLeader()
    ensures SeqSum(ls, AtLeader(Relay2Value)) == 0
  {
    if ls != [] { IdleLeaders(ls[..|ls| - 1]); }
  }

  /** The books balance in every reachable state, across any number of epochs and any reordering. */
  lemma {:induction false} MoneyIsConserved(cfg: Cfg, acts: seq<Action>)
    requires cfg.shards > 0 && Run(cfg, acts).Some?
    ensures Inv(cfg, Run(cfg, acts).value) && Books(cfg, Run(cfg, acts).value)
  {
    RunKeepsInv(cfg, acts);
    if acts == [] {
      InitBooks(cfg);
    } else {
      MoneyIsConserved(cfg, acts[..|acts| - 1]);
      StepKeepsBooks(cfg, Run(cfg, acts[..|acts| - 1]).value, acts[|acts| - 1]);
    }
  }
}
