/** Exactly when the total stays what it was, and the runs in which it does not. */
module ConservationRuns {
  import opened Prelude
  import opened Accounts
  import opened Transactions
  import opened Execute
  import opened Chain
  import opened Migration
  import opened RelayOps
  import opened Sharding
  import opened ShardingInvariant
  import opened ShardingSteps
  import opened Conservation
  import opened TxCounts
  import opened Pool = TxPool

  /** A transaction proposal passes its preview, or there is no value in transit in what it drops; a commit drains nobody. */
  ghost predicate Clean(cfg: Cfg, sys: Sys, act: Action) {
    cfg.shards > 0 &&
    match act
    case Propose(s, _) => s < |sys.shards| && !sys.shards[s].meta.ready ==>
      PreviewOk(cfg, s, sys.shards[s]) || SeqSum(Packed(cfg, s, sys.shards[s]), Relay2Value) == 0
    case Commit(s) => s < |sys.shards| && sys.shards[s].proposal.Some? && sys.shards[s].proposal.value.TxContent? ==>
      var l := sys.shards[s];
      var db := TxsResult(l.st.db, LocationsInTxs(l.st.loc, cfg.shards, l.proposal.value.txs), s, l.proposal.value.txs);
      db.Some? ==> Drained(db.value) == {}
    case _ => true
  }

  ghost predicate CleanRun(cfg: Cfg, acts: seq<Action>) {
    acts == [] ||
    (CleanRun(cfg, acts[..|acts| - 1]) &&
     match Run(cfg, acts[..|acts| - 1]) case None => false case Some(sys) => Clean(cfg, sys, acts[|acts| - 1]))
  }

  /** After every step of the run, the total is what it was at the beginning. */
  ghost predicate ConstantThroughout(cfg: Cfg, acts: seq<Action>) {
    && (acts == [] || ConstantThroughout(cfg, acts[..|acts| - 1]))
    && match Run(cfg, acts)
       case None => false
       case Some(sys) => Shape(cfg, sys) && Total(cfg, sys) == NORMAL_INIT_BALANCE * cfg.accounts
  }

  /** A step that is not clean either burns or mints, and a clean one does neither. */
  lemma CleanStep(cfg: Cfg, sys: Sys, act: Action)
    requires Inv(cfg, sys) && Enabled(cfg, sys, act)
    ensures var sys' := Next(cfg, sys, act);
            && (Clean(cfg, sys, act) ==> sys'.burned == sys.burned && sys'.minted == sys.minted)
            && (!Clean(cfg, sys, act) ==> sys'.burned - sys.burned != sys'.minted - sys.minted)
  {
    match act
    case Propose(s, moved) =>
      if !sys.shards[s].meta.ready { CleanProposal(cfg, sys, s); }
    case Commit(s) =>
      CleanCommit(cfg, sys, s);
    case _ =>
  }

  lemma CleanProposal(cfg: Cfg, sys: Sys, s: Shard)
    requires Inv(cfg, sys) && s < cfg.shards && !sys.shards[s].meta.ready
    ensures ProposeTxs(cfg, s, sys.shards[s]).minted == 0
    ensures Clean(cfg, sys, Propose(s, map[])) <==> ProposeTxs(cfg, s, sys.shards[s]).burned == 0
  {
  }

  lemma CleanCommit(cfg: Cfg, sys: Sys, s: Shard)
    requires Inv(cfg, sys) && s < cfg.shards && sys.shards[s].proposal.Some?
    ensures LeaderCommit(cfg, s, sys.shards[s]).burned == 0
    ensures Clean(cfg, sys, Commit(s)) <==> LeaderCommit(cfg, s, sys.shards[s]).minted == 0
  {
    var l := sys.shards[s];
    hide Inv;
    if l.proposal.value.TxContent? {
      var txs := l.proposal.value.txs;
      var db := TxsResult(l.st.db, LocationsInTxs(l.st.loc, cfg.shards, txs), s, txs);
      if db.Some? { assert |Drained(db.value)| == 0 <==> Drained(db.value) == {}; }
    }
  }

  lemma {:induction false} CleanRunKeeps(cfg: Cfg, acts: seq<Action>)
    requires cfg.shards > 0 && Run(cfg, acts).Some? && CleanRun(cfg, acts)
    ensures Run(cfg, acts).value.burned == 0 == Run(cfg, acts).value.minted
  {
    if acts != [] {
      CleanRunKeeps(cfg, acts[..|acts| - 1]);
      RunKeepsInv(cfg, acts[..|acts| - 1]);
      CleanStep(cfg, Run(cfg, acts[..|acts| - 1]).value, acts[|acts| - 1]);
    }
  }

  /**
   * The total never changes in a run if and only if no pack is aborted with a relay-2 transaction in it and no block
   * leaves an account empty.
   */
  lemma {:induction false} ConstantExactlyWhen(cfg: Cfg, acts: seq<Action>)
    requires cfg.shards > 0 && Run(cfg, acts).Some?
    ensures ConstantThroughout(cfg, acts) <==> CleanRun(cfg, acts)
  {
    MoneyIsConserved(cfg, acts);
    if acts == [] {
      assert Run(cfg, acts).value == Init(cfg);
    } else {
      var most := acts[..|acts| - 1];
      ConstantExactlyWhen(cfg, most);
      if CleanRun(cfg, most) {
        CleanRunKeeps(cfg, most);
        RunKeepsInv(cfg, most);
        hide Inv, Total, Clean;
        CleanStep(cfg, Run(cfg, most).value, acts[|acts| - 1]);
      }
    }
  }

  // ---------------------------------------------------------------------------- single lists

  /** Lists that are empty but for one are delivered as one message. */
  lemma {:induction false} DeliverOnly(lists: seq<seq<Tx>>, k: nat)
    requires k < |lists| && lists[k] != [] && forall d :: 0 <= d < |lists| && d != k ==> lists[d] == []
    ensures Deliveries(lists) == [ReceiveTxs(k, lists[k])]
  {
    var most := lists[..|lists| - 1];
    if k == |lists| - 1 {
      DeliverNone(most);
    } else {
      DeliverOnly(most, k);
    }
  }

  lemma {:induction false} DeliverNone(lists: seq<seq<Tx>>)
    requires forall d :: 0 <= d < |lists| ==> lists[d] == []
    ensures Deliveries(lists) == []
  {
    if lists != [] { DeliverNone(lists[..|lists| - 1]); }
  }

  lemma PickOne(tx: Tx, p: Tx -> bool)
    ensures Pick([tx], p) == if p(tx) then [tx] else []
  {
    assert [] + [tx] == [tx];
    PickSnoc([], tx, p);
  }

  lemma DeliverOne(tx: Tx, dest: Tx -> Option<Shard>, n: nat, k: Shard)
    requires k < n && dest(tx) == Some(k)
    ensures Deliveries(ByShard([tx], dest, n)) == [ReceiveTxs(k, [tx])]
  {
    var lists := ByShard([tx], dest, n);
    forall d | 0 <= d < n ensures lists[d] == if d == k then [tx] else [] {
      PickOne(tx, (t: Tx) => dest(t) == Some(d));
    }
    DeliverOnly(lists, k);
  }

  // --------------------------------------------------------------------------- the two runs

  /** A transfer of everything a new account has. */
  function DrainTx(): Tx { Tx(TxBody(0, 1, NORMAL_INIT_BALANCE, 0), Undetermined, NoHash) }

  ghost predicate After(cfg: Cfg, acts: seq<Action>, sys: Sys) { cfg.shards > 0 && Run(cfg, acts) == Some(sys) }

  lemma One(cfg: Cfg, acts: seq<Action>, sys: Sys, act: Action)
    requires After(cfg, acts, sys) && Enabled(cfg, sys, act)
    ensures After(cfg, acts + [act], Next(cfg, sys, act))
  {
    hide Enabled, Next;
    assert (acts + [act])[..|acts|] == acts;
  }

  /** A fresh transaction is injected and delivered to the shard of its sender. */
  lemma Arrives(cfg: Cfg, acts: seq<Action>, sys: Sys, tx: Tx, s: Shard) returns (acts': seq<Action>, sys': Sys)
    requires After(cfg, acts, sys) && FreshTx(cfg, tx) && EpochSynced(sys.sup) && |sys.shards| == cfg.shards
    requires s < cfg.shards && LocOf(sys.sup.part, tx.Sender(), cfg.shards) == s
    ensures After(cfg, acts', sys') && sys'.net == sys.net && sys'.sup == sys.sup.(synced := true)
    ensures sys'.shards == sys.shards[s := sys.shards[s].(pool := sys.shards[s].pool + [tx])]
    ensures sys'.burned == sys.burned && sys'.minted == sys.minted
  {
    var inject, deliver := Inject([tx]), Deliver(|sys.net|);
    One(cfg, acts, sys, inject);
    hide After;
    DeliverOne(tx, SenderShard(sys.sup.part, cfg.shards), cfg.shards, s);
    var mid := Next(cfg, sys, inject);
    assert mid.net == sys.net + [ReceiveTxs(s, [tx])];
    One(cfg, acts + [inject], mid, deliver);
    acts' := acts + [inject] + [deliver];
    sys' := Next(cfg, mid, deliver);
    assert Without(mid.net, |sys.net|) == sys.net;
  }

  /** The only pooled transaction, local and executable, becomes the proposal. */
  lemma ProposesOne(cfg: Cfg, acts: seq<Action>, sys: Sys, tx: Tx, s: Shard, t: Tx) returns (acts': seq<Action>, sys': Sys)
    requires After(cfg, acts, sys) && |sys.shards| == cfg.shards && s < cfg.shards && cfg.blockSize >= 1
    requires sys.shards[s] == InitialLeader().(pool := [tx])
    requires forall i :: 0 <= i < |sys.net| ==> !sys.net[i].AccountMigration?
    requires Local(map[], cfg.shards, s, tx) && Tagged(map[], cfg.shards, s, tx) == Some(t)
    requires Applied(EMPTY_STATE, cfg.shards, s, TxContent([t])).Some?
    ensures After(cfg, acts', sys') && sys' == sys.(shards := sys.shards[s := InitialLeader().(proposal := Some(TxContent([t])))])
  {
    var act := Propose(s, map[]);
    var here := IsHere(map[], cfg.shards, s);
    assert PackCount([tx], cfg.blockSize, here) == 1 && [tx][..1] == [tx] && [tx][1..] == [];
    PickOne(tx, here);
    TaggedOnly(cfg, s, tx, t);
    var lists := ByShard([tx], Elsewhere(map[], cfg.shards, s), cfg.shards);
    forall d | 0 <= d < cfg.shards ensures lists[d] == [] {
      PickOne(tx, (u: Tx) => Elsewhere(map[], cfg.shards, s)(u) == Some(d));
    }
    DeliverNone(lists);
    assert Enabled(cfg, sys, act);
    One(cfg, acts, sys, act);
    hide After, Applied, Pick, PackCount, TaggedAll, ByShard, Deliveries;
    acts' := acts + [act];
    sys' := Next(cfg, sys, act);
    assert sys.net + [] == sys.net;
  }

  lemma TaggedOnly(cfg: Cfg, s: Shard, tx: Tx, t: Tx)
    requires cfg.shards > 0 && Tagged(map[], cfg.shards, s, tx) == Some(t)
    ensures TaggedAll(map[], cfg.shards, s, [tx]) == [t]
  {
    assert [tx][..0] == [];
  }

  /** One transaction, executed by itself. */
  lemma RunsAlone(n: nat, s: Shard, t: Tx, db: StateDB)
    requires n > 0 && TxResult(map[], LocationsInTxs(map[], n, [t]), s, t) == Some(db)
    ensures TxsResult(map[], LocationsInTxs(map[], n, [t]), s, [t]) == Some(db)
    ensures Applied(EMPTY_STATE, n, s, TxContent([t])) == Some(State(Prune(db), map[]))
  {
    assert [t][..0] == [];
  }

  /** In every system with two accounts a block can drain one of them; its initial balance then comes back. */
  lemma DrainingMints(cfg: Cfg) returns (acts: seq<Action>, sys: Sys)
    requires cfg.shards > 0 && cfg.blockSize >= 1 && cfg.accounts >= 2
    ensures Run(cfg, acts) == Some(sys) && sys.minted >= NORMAL_INIT_BALANCE && sys.burned == 0
  {
    var tx := DrainTx();
    assert After(cfg, [], Init(cfg));
    var acts1, sys1 := Arrives(cfg, [], Init(cfg), tx, 0);
    assert Init(cfg).shards[0].pool + [tx] == [tx];
    var t := Tagged(map[], cfg.shards, 0, tx).value;
    var db := DrainedBy(cfg.shards, t);
    var acts2, sys2 := ProposesOne(cfg, acts1, sys1, tx, 0, t);
    One(cfg, acts2, sys2, Commit(0));
    acts := acts2 + [Commit(0)];
    sys := Next(cfg, sys2, Commit(0));
    hide Run, After, Applied, Deliveries, ByShard, TxsResult;
    assert 0 in Drained(db);
    assert |Drained(db)| >= 1 by { assert |Drained(db)| == 0 <==> Drained(db) == {}; }
  }

  lemma DrainedBy(n: nat, t: Tx) returns (db: StateDB)
    requires n > 0 && Tagged(map[], n, 0, DrainTx()) == Some(t)
    ensures TxsResult(map[], LocationsInTxs(map[], n, [t]), 0, [t]) == Some(db) && 0 in Drained(db)
    ensures Applied(EMPTY_STATE, n, 0, TxContent([t])).Some?
  {
    db := TxResult(map[], LocationsInTxs(map[], n, [t]), 0, t).value;
    RunsAlone(n, 0, t, db);
  }

  /** A payment of one to another shard, and a payment of more than the payee has then. */
  function CrossTx(): Tx { Tx(TxBody(0, 1, 1, 0), Undetermined, NoHash) }
  function FirstLeg(): Tx { CrossTx().(stage := Relay1, original := CrossTx().Hash()) }
  function SecondLeg(): Tx { AsRelay2(FirstLeg()) }
  function TooMuchTx(): Tx { Tx(TxBody(1, 1, NORMAL_INIT_BALANCE + 2, 0), Undetermined, NoHash) }

  lemma FirstLegRuns(n: nat)
    requires n >= 2
    ensures Local(map[], n, 0, CrossTx()) && Tagged(map[], n, 0, CrossTx()) == Some(FirstLeg())
    ensures Applied(EMPTY_STATE, n, 0, TxContent([FirstLeg()])).Some?
    ensures Applied(EMPTY_STATE, n, 0, TxContent([FirstLeg()])).value.loc == map[]
  {
    FirstLegHere(n);
    var locs := LocationsInTxs(map[], n, [FirstLeg()]);
    hide LocationsInTxs, DefaultAccountLoc;
    var db := TxResult(map[], locs, 0, FirstLeg());
    assert db.Some?;
    hide TxResult, TxsResult, Prune, Applied;
    RunsAlone(n, 0, FirstLeg(), db.value);
  }

  lemma SmallHomes(n: nat)
    requires n >= 2
    ensures DefaultAccountLoc(0, n) == 0 && DefaultAccountLoc(1, n) == 1
  {
  }

  /** Accounts 0 and 1 are found in shards 0 and 1 when a transaction names both. */
  lemma FirstLegHere(n: nat)
    requires n >= 2
    ensures DefaultAccountLoc(0, n) == 0 && DefaultAccountLoc(1, n) == 1
    ensures var locs := LocationsInTxs(map[], n, [FirstLeg()]); 0 in locs && 1 in locs && locs[0] == 0
  {
    SmallHomes(n);
    hide DefaultAccountLoc, AccountsOf;
    var txs := [FirstLeg()];
    assert txs[0].Sender() == 0 && txs[0].Recipient() == 1;
  }

  /** Shard 0 commits the first leg, and the second is delivered to shard 1. */
  lemma SecondLegArrives(cfg: Cfg) returns (acts: seq<Action>, sys: Sys)
    requires cfg.shards >= 2 && cfg.blockSize >= 1 && cfg.accounts >= 2
    ensures After(cfg, acts, sys) && |sys.shards| == cfg.shards && sys.shards[1] == InitialLeader().(pool := [SecondLeg()])
    ensures sys.burned == 0 && sys.sup == Init(cfg).sup.(synced := true) && forall i :: 0 <= i < |sys.net| ==> !sys.net[i].AccountMigration?
  {
    assert After(cfg, [], Init(cfg));
    var acts1, sys1 := Arrives(cfg, [], Init(cfg), CrossTx(), 0);
    assert Init(cfg).shards[0].pool + [CrossTx()] == [CrossTx()];
    FirstLegRuns(cfg.shards);
    var acts2, sys2 := ProposesOne(cfg, acts1, sys1, CrossTx(), 0, FirstLeg());
    assert sys2.net == [] && sys2.shards[1] == InitialLeader();
    acts, sys := SecondLegSent(cfg, acts2, sys2);
  }

  lemma OnlyLeg()
    ensures Pick([FirstLeg()], OfStage(Relay1)) == [FirstLeg()] && Relay2Legs([FirstLeg()]) == [SecondLeg()]
  {
    PickOne(FirstLeg(), OfStage(Relay1));
    assert [FirstLeg()][..0] == [];
  }

  /** What committing the first leg sends: a report, and the second leg to its shard. */
  lemma FirstLegCommits(cfg: Cfg)
    requires cfg.shards >= 2
    ensures var e := CommitTxs(cfg, 0, InitialLeader().(proposal := Some(TxContent([FirstLeg()]))), [FirstLeg()]);
            |e.out| == 2 && e.out[0].BlockInfo? && e.out[1] == ReceiveTxs(1, [SecondLeg()]) && e.burned == 0
  {
    FirstLegRuns(cfg.shards);
    SmallHomes(cfg.shards);
    OnlyLeg();
    assert RecipientShard(map[], cfg.shards)(SecondLeg()) == Some(1);
    DeliverOne(SecondLeg(), RecipientShard(map[], cfg.shards), cfg.shards, 1);
    hide Applied, Deliveries, ByShard, TxsResult, Pick, Relay2Legs, DefaultAccountLoc, RecipientShard;
  }

  lemma SecondLegSent(cfg: Cfg, acts: seq<Action>, sys: Sys) returns (acts': seq<Action>, sys': Sys)
    requires After(cfg, acts, sys) && |sys.shards| == cfg.shards >= 2 && sys.net == [] && sys.burned == 0
    requires sys.shards[0] == InitialLeader().(proposal := Some(TxContent([FirstLeg()]))) && sys.shards[1] == InitialLeader()
    ensures After(cfg, acts', sys') && |sys'.shards| == cfg.shards && sys'.shards[1] == InitialLeader().(pool := [SecondLeg()])
    ensures sys'.burned == 0 && sys'.sup == sys.sup && forall i :: 0 <= i < |sys'.net| ==> !sys'.net[i].AccountMigration?
  {
    FirstLegCommits(cfg);
    One(cfg, acts, sys, Commit(0));
    hide After, Run, Applied, Deliveries, ByShard, TxsResult, CommitTxs, SecondLeg;
    var mid := Next(cfg, sys, Commit(0));
    assert |mid.net| == 2 && mid.net[0].BlockInfo? && mid.net[1] == ReceiveTxs(1, [SecondLeg()]);
    acts', sys' := Delivered(cfg, acts + [Commit(0)], mid);
  }

  lemma Delivered(cfg: Cfg, acts: seq<Action>, sys: Sys) returns (acts': seq<Action>, sys': Sys)
    requires After(cfg, acts, sys) && |sys.shards| == cfg.shards >= 2 && sys.shards[1] == InitialLeader()
    requires |sys.net| == 2 && sys.net[0].BlockInfo? && sys.net[1] == ReceiveTxs(1, [SecondLeg()])
    ensures After(cfg, acts', sys') && sys' == sys.(net := [sys.net[0]], shards := sys.shards[1 := InitialLeader().(pool := [SecondLeg()])])
  {
    One(cfg, acts, sys, Deliver(1));
    hide After, SecondLeg;
    acts' := acts + [Deliver(1)];
    sys' := Next(cfg, sys, Deliver(1));
    assert Without(sys.net, 1) == [sys.net[0]];
    assert [] + [SecondLeg()] == [SecondLeg()];
  }

  lemma TwoTxs(db: StateDB, locs: map<Acct, Shard>, s: Shard, a: Tx, b: Tx)
    requires Covers(locs, [a, b]) && a.Sender() in locs && a.Recipient() in locs && b.Sender() in locs && b.Recipient() in locs
    ensures TxsResult(db, locs, s, [a, b]) ==
            match TxResult(db, locs, s, a) case None => None case Some(mid) => TxResult(mid, locs, s, b)
  {
    assert [a, b][..1] == [a] && [a][..0] == [];
    assert TxsResult(db, locs, s, []) == Some(db);
    assert TxsResult(db, locs, s, [a]) == TxResult(db, locs, s, a);
  }

  lemma TooMuchFails(locs: map<Acct, Shard>)
    requires 0 in locs && 1 in locs && locs[1] == 1
    ensures match TxResult(map[], locs, 1, SecondLeg()) case None => false case Some(mid) => TxResult(mid, locs, 1, TooMuchTx()).None?
  {
    var mid := TxResult(map[], locs, 1, SecondLeg());
    assert mid.Some? && 1 in mid.value && mid.value[1].balance == NORMAL_INIT_BALANCE + 1;
  }

  lemma FailsAtFirst(n: nat, s: Shard, txs: seq<Tx>)
    requires n > 0 && TxsResult(map[], LocationsInTxs(map[], n, txs), s, txs).None?
    ensures Applied(EMPTY_STATE, n, s, TxContent(txs)).None?
  {
  }

  lemma PreviewFails(n: nat)
    requires n >= 2
    ensures Applied(EMPTY_STATE, n, 1, TxContent([SecondLeg(), TooMuchTx()])).None?
  {
    var txs := [SecondLeg(), TooMuchTx()];
    var locs := LocationsInTxs(map[], n, txs);
    SmallHomes(n);
    hide TxsResult, TxResult, DefaultAccountLoc, AccountsOf, Applied, Prune;
    assert txs[0].Recipient() in locs && txs[0].Sender() in locs && txs[1].Sender() in locs;
    TwoTxs(map[], locs, 1, SecondLeg(), TooMuchTx());
    TooMuchFails(locs);
    FailsAtFirst(n, 1, txs);
  }

  /** Two local transactions fit into one block. */
  lemma PacksTwo(cfg: Cfg, s: Shard, a: Tx, b: Tx)
    requires cfg.shards > 0 && cfg.blockSize >= 2 && Local(map[], cfg.shards, s, a) && Local(map[], cfg.shards, s, b)
    ensures Packed(cfg, s, InitialLeader().(pool := [a, b])) == [a, b]
  {
    var here := IsHere(map[], cfg.shards, s);
    assert [a, b][1..] == [b] && [b][1..] == [] && [a, b] == [a] + [b] && [a, b][..2] == [a, b];
    assert PackCount([b], cfg.blockSize - 1, here) == 1;
    PickOne(a, here);
    PickSnoc([a], b, here);
  }

  lemma BothLocal(n: nat)
    requires n >= 2
    ensures Local(map[], n, 1, SecondLeg()) && Local(map[], n, 1, TooMuchTx())
    ensures Tagged(map[], n, 1, SecondLeg()) == Some(SecondLeg()) && Tagged(map[], n, 1, TooMuchTx()) == Some(TooMuchTx())
    ensures Relay2Value(SecondLeg()) == 1 && Relay2Value(TooMuchTx()) == 0
  {
    SmallHomes(n);
  }

  lemma TagsTwo(cfg: Cfg, s: Shard, a: Tx, b: Tx)
    requires cfg.shards > 0 && Tagged(map[], cfg.shards, s, a) == Some(a) && Tagged(map[], cfg.shards, s, b) == Some(b)
    ensures TaggedAll(map[], cfg.shards, s, [a, b]) == [a, b]
    ensures SeqSum([a, b], Relay2Value) == Relay2Value(a) + Relay2Value(b)
  {
    assert [a, b][..1] == [a] && [a, b] == [a] + [b];
    TaggedOnly(cfg, s, a, a);
    SeqSumOne(a, Relay2Value);
    SeqSumSnoc([a], b, Relay2Value);
  }

  lemma PacksBoth(cfg: Cfg)
    requires cfg.shards >= 2 && cfg.blockSize >= 2
    ensures Packed(cfg, 1, InitialLeader().(pool := [SecondLeg(), TooMuchTx()])) == [SecondLeg(), TooMuchTx()]
    ensures TaggedAll(map[], cfg.shards, 1, [SecondLeg(), TooMuchTx()]) == [SecondLeg(), TooMuchTx()]
    ensures SeqSum([SecondLeg(), TooMuchTx()], Relay2Value) == 1
  {
    BothLocal(cfg.shards);
    hide SecondLeg, TooMuchTx, Local, Tagged, Packed, TaggedAll, Relay2Value;
    PacksTwo(cfg, 1, SecondLeg(), TooMuchTx());
    TagsTwo(cfg, 1, SecondLeg(), TooMuchTx());
  }

  lemma BothBurn(cfg: Cfg)
    requires cfg.shards >= 2 && cfg.blockSize >= 2
    ensures ProposeTxs(cfg, 1, InitialLeader().(pool := [SecondLeg(), TooMuchTx()])).burned == 1
  {
    PacksBoth(cfg);
    PreviewFails(cfg.shards);
    hide Applied, Pick, PackCount, ByShard, TaggedAll, Deliveries, SecondLeg, TooMuchTx;
  }

  lemma TooMuchFits(cfg: Cfg)
    requires cfg.shards >= 2 && cfg.accounts >= 2
    ensures FreshTx(cfg, TooMuchTx()) && LocOf(map[], TooMuchTx().Sender(), cfg.shards) == 1
  {
  }

  /** The second leg and a transaction that cannot be paid for wait in one pool. */
  lemma BothArrive(cfg: Cfg) returns (acts: seq<Action>, sys: Sys)
    requires cfg.shards >= 2 && cfg.blockSize >= 1 && cfg.accounts >= 2
    ensures After(cfg, acts, sys) && |sys.shards| == cfg.shards && sys.shards[1] == InitialLeader().(pool := [SecondLeg(), TooMuchTx()])
    ensures sys.burned == 0 && forall i :: 0 <= i < |sys.net| ==> !sys.net[i].AccountMigration?
  {
    TooMuchFits(cfg);
    hide SecondLeg, TooMuchTx, After, FreshTx;
    var acts1, sys1 := SecondLegArrives(cfg);
    acts, sys := Arrives(cfg, acts1, sys1, TooMuchTx(), 1);
    assert [SecondLeg()] + [TooMuchTx()] == [SecondLeg(), TooMuchTx()];
  }

  lemma ProposalBurns(cfg: Cfg, sys: Sys)
    requires cfg.shards >= 2 && cfg.blockSize >= 2 && |sys.shards| == cfg.shards
    requires sys.shards[1] == InitialLeader().(pool := [SecondLeg(), TooMuchTx()])
    requires sys.burned == 0 && forall i :: 0 <= i < |sys.net| ==> !sys.net[i].AccountMigration?
    ensures Enabled(cfg, sys, Propose(1, map[])) && Next(cfg, sys, Propose(1, map[])).burned == 1
  {
    hide ProposeTxs, SecondLeg, TooMuchTx;
    BothBurn(cfg);
  }

  /** In every system with two shards and room for two in a block, an aborted pack can take value in transit with it. */
  lemma AbortBurns(cfg: Cfg) returns (acts: seq<Action>, sys: Sys)
    requires cfg.shards >= 2 && cfg.blockSize >= 2 && cfg.accounts >= 2
    ensures Run(cfg, acts) == Some(sys) && sys.burned == 1
  {
    var acts1, sys1 := BothArrive(cfg);
    hide Enabled, Next, SecondLeg, TooMuchTx;
    ProposalBurns(cfg, sys1);
    One(cfg, acts1, sys1, Propose(1, map[]));
    acts := acts1 + [Propose(1, map[])];
    sys := Next(cfg, sys1, Propose(1, map[]));
  }
}
