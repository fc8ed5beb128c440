/** Solvency and the life cycle of the broker protocol, over every run. */
module BrokerSolvency {
  import opened Prelude
  import opened Accounts
  import opened Transactions
  import opened Execute
  import opened Broker
  import opened StaticBroker
  import opened BrokerSystem
  import opened BrokerLifeCycle

  function OnChain(sys: Sys, b: Acct, k: Shard): int
    requires k < |sys.dbs|
  {
    Read(sys.dbs[k], b).balance
  }

  // --------------------------------------------------------------------------- funds

  /** What an unconfirmed payment has reserved with broker b in shard k. */
  ghost function Claim(info: map<TxHash, Info>, n: nat, b: Acct, k: Shard): TxHash -> int
    requires n > 0
  {
    (h: TxHash) => if h in info && info[h].raw.broker == b && TargetShard(info[h].raw, n) == k then info[h].raw.body.value else 0
  }

  /** What an unconfirmed payment has done on chain and the committee has not heard of. */
  ghost function Unheard(info: map<TxHash, Info>, executed: set<Leg>, n: nat, b: Acct, k: Shard): TxHash -> int
    requires n > 0
  {
    (h: TxHash) =>
      if h !in info || info[h].raw.broker != b then 0 else
      var raw := info[h].raw;
      (if Leg(raw, Sigma1) in executed && SourceShard(raw, n) == k then raw.body.value else 0)
      - (if Leg(raw, Sigma2) in executed && TargetShard(raw, n) == k then raw.body.value else 0)
  }

  ghost function Claims(sys: Sys, n: nat, b: Acct, k: Shard): int
    requires n > 0
  {
    SetSum(sys.books.mgr.info.Keys, Claim(sys.books.mgr.info, n, b, k))
  }

  ghost function UnheardSum(sys: Sys, n: nat, b: Acct, k: Shard): int
    requires n > 0
  {
    SetSum(sys.books.mgr.info.Keys, Unheard(sys.books.mgr.info, sys.executed, n, b, k))
  }

  /** Mirrored balance >= pending deduction >= reserved, and the chain has at least what the mirror says it must. */
  ghost predicate Solvent(cfg: Cfg, sys: Sys, b: Acct, k: Shard)
    requires BooksShape(sys.books, cfg.n) && |sys.dbs| == cfg.n && b in sys.books.balance && k < cfg.n
  {
    && sys.books.balance[b][k] >= sys.books.pending[b][k] >= Claims(sys, cfg.n, b, k)
    && OnChain(sys, b, k) >= sys.books.balance[b][k] + UnheardSum(sys, cfg.n, b, k)
  }

  ghost predicate Funded(cfg: Cfg, sys: Sys)
    requires BooksShape(sys.books, cfg.n) && |sys.dbs| == cfg.n && sys.books.balance.Keys == cfg.brokers
  {
    forall b, k :: b in cfg.brokers && 0 <= k < cfg.n ==> Solvent(cfg, sys, b, k)
  }

  ghost predicate Inv(cfg: Cfg, sys: Sys) {
    Orderly(cfg, sys) && Funded(cfg, sys)
  }

  lemma InitHolds(cfg: Cfg)
    requires cfg.n > 0
    ensures Inv(cfg, Init(cfg))
  {
  }

  // -------------------------------------------------------------------------- accepting

  /** A new payment adds its value to the claims on its broker, and has done nothing on chain yet. */
  lemma CreatedClaims(cfg: Cfg, sys: Sys, m': Mgr, raw: Raw, tx: TxBody, b: Acct, c: Acct, k: Shard)
    requires cfg.n > 0 && CreatedRaw(sys.books.mgr, tx, b) == Some((m', raw)) && LegsOk(sys.books.mgr, sys.flying, sys.executed)
    ensures SetSum(m'.info.Keys, Claim(m'.info, cfg.n, c, k)) ==
            Claims(sys, cfg.n, c, k) + if c == b && k == DefaultAccountLoc(tx.recipient, cfg.n) then tx.value else 0
    ensures SetSum(m'.info.Keys, Unheard(m'.info, sys.executed, cfg.n, c, k)) == UnheardSum(sys, cfg.n, c, k)
  {
    var h := HashOf(tx);
    var old_ := sys.books.mgr.info;
    assert m'.info.Keys - {h} == old_.Keys;
    assert Leg(raw, Sigma1) in sys.executed ==> Wanted(sys.books.mgr, Leg(raw, Sigma1));
    assert Leg(raw, Sigma2) in sys.executed ==> Wanted(sys.books.mgr, Leg(raw, Sigma2));
    SetSumWithout(m'.info.Keys, Claim(m'.info, cfg.n, c, k), h);
    SetSumAgree(old_.Keys, Claim(m'.info, cfg.n, c, k), Claim(old_, cfg.n, c, k));
    SetSumWithout(m'.info.Keys, Unheard(m'.info, sys.executed, cfg.n, c, k), h);
    SetSumAgree(old_.Keys, Unheard(m'.info, sys.executed, cfg.n, c, k), Unheard(old_, sys.executed, cfg.n, c, k));
  }

  /** A reservation that leads to no payment only leaks; one that does covers the payment's claim. */
  lemma {:induction false} ReserveOk(cfg: Cfg, sys: Sys, tx: TxBody, order: seq<Acct>)
    requires Inv(cfg, sys) && tx.value >= 0 && !IsInner(cfg.brokers, cfg.n, tx) && forall b :: b in order ==> b in cfg.brokers
    ensures Inv(cfg, sys.(books := Reserved(sys.books, cfg.n, tx, order).0))
    decreases order
  {
    if order == [] {
    } else {
      var b, k := order[0], DefaultAccountLoc(tx.recipient, cfg.n);
      if sys.books.balance[b][k] - sys.books.pending[b][k] < tx.value {
        ReserveOk(cfg, sys, tx, order[1..]);
      } else {
        var held := sys.books.(pending := Added(sys.books.pending, b, k, tx.value));
        match CreatedRaw(held.mgr, tx, b)
        case None =>
          LeakOk(cfg, sys, tx, b, k);
          ReserveOk(cfg, sys.(books := held), tx, order[1..]);
        case Some((mgr, raw)) => CreateOk(cfg, sys, tx, b, k, mgr, raw);
      }
    }
  }

  lemma LeakOk(cfg: Cfg, sys: Sys, tx: TxBody, b: Acct, k: Shard)
    requires Inv(cfg, sys) && tx.value >= 0 && b in cfg.brokers && k < cfg.n
    requires sys.books.balance[b][k] - sys.books.pending[b][k] >= tx.value
    ensures Inv(cfg, sys.(books := sys.books.(pending := Added(sys.books.pending, b, k, tx.value))))
  {
    var sys' := sys.(books := sys.books.(pending := Added(sys.books.pending, b, k, tx.value)));
    forall c, j | c in cfg.brokers && 0 <= j < cfg.n ensures Solvent(cfg, sys', c, j) {
      assert Solvent(cfg, sys, c, j);
    }
  }

  lemma CreateOk(cfg: Cfg, sys: Sys, tx: TxBody, b: Acct, k: Shard, mgr: Mgr, raw: Raw)
    requires Inv(cfg, sys) && tx.value >= 0 && !IsInner(cfg.brokers, cfg.n, tx) && b in cfg.brokers
    requires k == DefaultAccountLoc(tx.recipient, cfg.n) && sys.books.balance[b][k] - sys.books.pending[b][k] >= tx.value
    requires CreatedRaw(sys.books.mgr, tx, b) == Some((mgr, raw))
    ensures Inv(cfg, sys.(books := sys.books.(pending := Added(sys.books.pending, b, k, tx.value), mgr := mgr)))
  {
    var sys' := sys.(books := sys.books.(pending := Added(sys.books.pending, b, k, tx.value), mgr := mgr));
    forall c, j | c in cfg.brokers && 0 <= j < cfg.n ensures Solvent(cfg, sys', c, j) {
      assert Solvent(cfg, sys, c, j);
      CreatedClaims(cfg, sys, mgr, raw, tx, b, c, j);
    }
    CreatedOrder(cfg, sys.books.mgr, sys.flying, sys.executed, tx, b, mgr, raw);
    hide RawsOk, ReadyOk, LegsOk;
  }

  // -------------------------------------------------------------------------- executing

  /** What an executed second leg spends, and all others before it, was claimed: the broker can pay. */
  lemma BrokerCanPay(cfg: Cfg, sys: Sys, leg: Leg)
    requires Inv(cfg, sys) && leg in sys.flying && leg.sigma == Sigma2
    ensures TargetShard(leg.raw, cfg.n) < cfg.n
    ensures OnChain(sys, leg.raw.broker, TargetShard(leg.raw, cfg.n)) >= leg.raw.body.value
  {
    var info := sys.books.mgr.info;
    var b, k := leg.raw.broker, TargetShard(leg.raw, cfg.n);
    assert Wanted(sys.books.mgr, leg);
    assert Solvent(cfg, sys, b, k);
    var claim, unheard := Claim(info, cfg.n, b, k), Unheard(info, sys.executed, cfg.n, b, k);
    var slack := (h: TxHash) => claim(h) + unheard(h);
    var h := leg.raw.Hash();
    SetSumPlus(info.Keys, claim, unheard, slack);
    SetSumWithout(info.Keys, slack, h);
    forall x | x in info.Keys - {h} ensures slack(x) >= 0 {
    }
    SetSumNonNegative(info.Keys - {h}, slack);
    assert Leg(leg.raw, Sigma1) in sys.executed ==> Wanted(sys.books.mgr, Leg(leg.raw, Sigma1));
  }

  /** What a leg does to broker b in shard k. */
  function LegEffect(leg: Leg, n: nat, b: Acct, k: Shard): int
    requires n > 0
  {
    if leg.raw.broker != b || ShardOf(leg, n) != k then 0
    else if leg.sigma == Sigma1 then leg.raw.body.value else -leg.raw.body.value
  }

  /** On chain a leg does just that, as long as the broker can pay; other parties are no brokers. */
  lemma LegOnChain(cfg: Cfg, db: StateDB, leg: Leg, b: Acct)
    requires cfg.n > 0 && b in cfg.brokers && !IsInner(cfg.brokers, cfg.n, leg.raw.body)
    requires LegResult(db, cfg.n, ShardOf(leg, cfg.n), leg).Some?
    requires leg.sigma == Sigma2 ==> Read(db, leg.raw.broker).balance >= leg.raw.body.value
    ensures Read(LegResult(db, cfg.n, ShardOf(leg, cfg.n), leg).value, b).balance == Read(db, b).balance + LegEffect(leg, cfg.n, b, ShardOf(leg, cfg.n))
  {
  }

  /** Executing a leg that is wanted adds its effect to what is unheard; reporting it takes it off again. */
  lemma UnheardGains(cfg: Cfg, sys: Sys, leg: Leg, b: Acct, k: Shard)
    requires cfg.n > 0 && Wanted(sys.books.mgr, leg) && leg !in sys.executed && KeyedByHash(sys.books.mgr.info)
    ensures SetSum(sys.books.mgr.info.Keys, Unheard(sys.books.mgr.info, sys.executed + {leg}, cfg.n, b, k)) ==
            UnheardSum(sys, cfg.n, b, k) + LegEffect(leg, cfg.n, b, k)
  {
    var info := sys.books.mgr.info;
    SetSumChangeAt(info.Keys, Unheard(info, sys.executed, cfg.n, b, k), Unheard(info, sys.executed + {leg}, cfg.n, b, k), leg.raw.Hash());
  }

  /** Executing a leg changes each broker's money by exactly what it leaves unheard. */
  lemma LegMovesMoney(cfg: Cfg, sys: Sys, leg: Leg, b: Acct, k: Shard)
    requires Inv(cfg, sys) && leg in sys.flying && b in cfg.brokers && k < cfg.n
    requires Enabled(cfg, sys, ExecuteLeg(leg)) && LegResult(sys.dbs[ShardOf(leg, cfg.n)], cfg.n, ShardOf(leg, cfg.n), leg).Some?
    ensures var sys' := Next(cfg, sys, ExecuteLeg(leg));
            k < |sys'.dbs| && OnChain(sys', b, k) - OnChain(sys, b, k) == UnheardSum(sys', cfg.n, b, k) - UnheardSum(sys, cfg.n, b, k)
  {
    var s := ShardOf(leg, cfg.n);
    assert Wanted(sys.books.mgr, leg);
    if leg.sigma == Sigma2 { BrokerCanPay(cfg, sys, leg); }
    LegOnChain(cfg, sys.dbs[s], leg, b);
    UnheardGains(cfg, sys, leg, b, k);
    hide LegResult, Unheard, LegsOk, ReadyOk, RawsOk, Funded;
  }

  lemma ExecuteFunds(cfg: Cfg, sys: Sys, leg: Leg)
    requires Inv(cfg, sys) && Enabled(cfg, sys, ExecuteLeg(leg))
    ensures Orderly(cfg, Next(cfg, sys, ExecuteLeg(leg))) && Funded(cfg, Next(cfg, sys, ExecuteLeg(leg)))
  {
    var sys' := Next(cfg, sys, ExecuteLeg(leg));
    StepKeepsOrder(cfg, sys, ExecuteLeg(leg));
    forall b, k | b in cfg.brokers && 0 <= k < cfg.n ensures Solvent(cfg, sys', b, k) {
      assert Solvent(cfg, sys, b, k);
      if LegResult(sys.dbs[ShardOf(leg, cfg.n)], cfg.n, ShardOf(leg, cfg.n), leg).Some? {
        LegMovesMoney(cfg, sys, leg, b, k);
      }
    }
  }

  // -------------------------------------------------------------------------- reporting

  /** A reported leg is always confirmed, and the clamp at zero never takes effect. */
  lemma ReportIsExact(cfg: Cfg, sys: Sys, leg: Leg)
    requires Inv(cfg, sys) && leg in sys.executed
    ensures Confirmed(sys.books.mgr, leg).Some?
    ensures ShardOf(leg, cfg.n) < cfg.n && leg.raw.broker in sys.books.pending
    ensures leg.sigma == Sigma2 ==> sys.books.pending[leg.raw.broker][ShardOf(leg, cfg.n)] >= leg.raw.body.value
  {
    assert Wanted(sys.books.mgr, leg);
    var b, k := leg.raw.broker, TargetShard(leg.raw, cfg.n);
    assert Solvent(cfg, sys, b, k);
    var claim := Claim(sys.books.mgr.info, cfg.n, b, k);
    SetSumWithout(sys.books.mgr.info.Keys, claim, leg.raw.Hash());
    SetSumNonNegative(sys.books.mgr.info.Keys - {leg.raw.Hash()}, claim);
  }

  lemma ReportFirstFunds(cfg: Cfg, sys: Sys, leg: Leg, b: Acct, k: Shard)
    requires Inv(cfg, sys) && leg in sys.executed && leg.sigma == Sigma1 && Enabled(cfg, sys, Report(leg)) && b in cfg.brokers && k < cfg.n
    requires BooksShape(Next(cfg, sys, Report(leg)).books, cfg.n)
    ensures Solvent(cfg, Next(cfg, sys, Report(leg)), b, k)
  {
    var sys' := Next(cfg, sys, Report(leg));
    assert Wanted(sys.books.mgr, leg) && Solvent(cfg, sys, b, k);
    ReportFirstSums(cfg, sys, sys'.books.mgr, leg, b, k);
    hide LegsOk, ReadyOk, RawsOk, Claim, Unheard, Funded;
  }

  /** The stage of the payment changes, its claim does not. */
  lemma ReportFirstSums(cfg: Cfg, sys: Sys, m': Mgr, leg: Leg, b: Acct, k: Shard)
    requires cfg.n > 0 && Wanted(sys.books.mgr, leg) && leg in sys.executed && leg.sigma == Sigma1 && Confirmed(sys.books.mgr, leg) == Some(m')
    requires KeyedByHash(sys.books.mgr.info)
    ensures SetSum(m'.info.Keys, Claim(m'.info, cfg.n, b, k)) == Claims(sys, cfg.n, b, k)
    ensures SetSum(m'.info.Keys, Unheard(m'.info, sys.executed - {leg}, cfg.n, b, k)) == UnheardSum(sys, cfg.n, b, k) - LegEffect(leg, cfg.n, b, k)
  {
    var info := sys.books.mgr.info;
    assert m'.info.Keys == info.Keys;
    SetSumAgree(info.Keys, Claim(m'.info, cfg.n, b, k), Claim(info, cfg.n, b, k));
    SetSumChangeAt(info.Keys, Unheard(info, sys.executed, cfg.n, b, k), Unheard(m'.info, sys.executed - {leg}, cfg.n, b, k), leg.raw.Hash());
  }

  /** Both ledgers change by the effect of the leg. */
  lemma SettledSecond(bk: Books, n: nat, leg: Leg, b: Acct, k: Shard)
    requires BooksShape(bk, n) && leg.sigma == Sigma2 && Confirmed(bk.mgr, leg).Some? && b in bk.balance && k < n
    requires bk.pending[leg.raw.broker][ShardOf(leg, n)] >= leg.raw.body.value
    ensures var bk' := Settled(bk, ShardOf(leg, n), leg);
            && BooksShape(bk', n) && bk'.mgr == Confirmed(bk.mgr, leg).value
            && bk'.balance[b][k] == bk.balance[b][k] + LegEffect(leg, n, b, k)
            && bk'.pending[b][k] == bk.pending[b][k] + LegEffect(leg, n, b, k)
  {
  }

  lemma ReportSecondFunds(cfg: Cfg, sys: Sys, leg: Leg, b: Acct, k: Shard)
    requires Inv(cfg, sys) && leg in sys.executed && leg.sigma == Sigma2 && Enabled(cfg, sys, Report(leg)) && b in cfg.brokers && k < cfg.n
    requires BooksShape(Next(cfg, sys, Report(leg)).books, cfg.n)
    ensures Solvent(cfg, Next(cfg, sys, Report(leg)), b, k)
  {
    var sys' := Next(cfg, sys, Report(leg));
    assert Wanted(sys.books.mgr, leg) && Solvent(cfg, sys, b, k);
    assert Leg(leg.raw, Sigma1) in sys.executed ==> Wanted(sys.books.mgr, Leg(leg.raw, Sigma1));
    ReportIsExact(cfg, sys, leg);
    SettledSecond(sys.books, cfg.n, leg, b, k);
    hide Settled, Confirmed, Funded, LegsOk, ReadyOk, LegEffect;
    ReportSecondSums(cfg, sys, sys'.books.mgr, leg, b, k);
    hide RawsOk, Claim, Unheard;
  }

  /** The payment is gone, and its claim with it. */
  lemma ReportSecondSums(cfg: Cfg, sys: Sys, m': Mgr, leg: Leg, b: Acct, k: Shard)
    requires cfg.n > 0 && Wanted(sys.books.mgr, leg) && leg in sys.executed && leg.sigma == Sigma2 && Confirmed(sys.books.mgr, leg) == Some(m')
    requires Leg(leg.raw, Sigma1) !in sys.executed && KeyedByHash(sys.books.mgr.info)
    ensures SetSum(m'.info.Keys, Claim(m'.info, cfg.n, b, k)) == Claims(sys, cfg.n, b, k) + LegEffect(leg, cfg.n, b, k)
    ensures SetSum(m'.info.Keys, Unheard(m'.info, sys.executed - {leg}, cfg.n, b, k)) == UnheardSum(sys, cfg.n, b, k) - LegEffect(leg, cfg.n, b, k)
  {
    var info, h := sys.books.mgr.info, leg.raw.Hash();
    assert m'.info.Keys == info.Keys - {h};
    SetSumWithout(info.Keys, Claim(info, cfg.n, b, k), h);
    SetSumAgree(m'.info.Keys, Claim(m'.info, cfg.n, b, k), Claim(info, cfg.n, b, k));
    SetSumWithout(info.Keys, Unheard(info, sys.executed, cfg.n, b, k), h);
    SetSumAgree(m'.info.Keys, Unheard(m'.info, sys.executed - {leg}, cfg.n, b, k), Unheard(info, sys.executed, cfg.n, b, k));
  }

  lemma ReportFunds(cfg: Cfg, sys: Sys, leg: Leg)
    requires Inv(cfg, sys) && Enabled(cfg, sys, Report(leg))
    ensures Orderly(cfg, Next(cfg, sys, Report(leg))) && Funded(cfg, Next(cfg, sys, Report(leg)))
  {
    var sys' := Next(cfg, sys, Report(leg));
    StepKeepsOrder(cfg, sys, Report(leg));
    forall b, k | b in cfg.brokers && 0 <= k < cfg.n ensures Solvent(cfg, sys', b, k) {
      if leg.sigma == Sigma1 { ReportFirstFunds(cfg, sys, leg, b, k); } else { ReportSecondFunds(cfg, sys, leg, b, k); }
    }
  }

  // --------------------------------------------------------------------- everything else

  lemma OthersEarn(db: StateDB, addrLoc: map<Acct, Shard>, k: Shard, tx: Tx, b: Acct)
    requires tx.Sender() in addrLoc && tx.Recipient() in addrLoc && b != tx.Sender()
    requires TxResult(db, addrLoc, k, tx).Some?
    ensures Read(TxResult(db, addrLoc, k, tx).value, b).balance >= Read(db, b).balance
  {
  }

  lemma MoreOnChain(cfg: Cfg, sys: Sys, k: Shard, db: StateDB)
    requires Inv(cfg, sys) && k < cfg.n
    requires forall b :: b in cfg.brokers ==> Read(db, b).balance >= Read(sys.dbs[k], b).balance
    ensures Inv(cfg, sys.(dbs := sys.dbs[k := db]))
  {
    var sys' := sys.(dbs := sys.dbs[k := db]);
    forall b, j | b in cfg.brokers && 0 <= j < cfg.n ensures Solvent(cfg, sys', b, j) {
      assert Solvent(cfg, sys, b, j);
    }
  }

  lemma StepKeepsInv(cfg: Cfg, sys: Sys, act: Action)
    requires Inv(cfg, sys) && Enabled(cfg, sys, act) && NoBrokerSends(cfg, act)
    ensures Inv(cfg, Next(cfg, sys, act))
  {
    StepKeepsOrder(cfg, sys, act);
    match act
    case Accept(tx, order) =>
      ReserveOk(cfg, sys, tx, order);
      SameFunds(cfg, sys.(books := Reserved(sys.books, cfg.n, tx, order).0), Next(cfg, sys, act));
    case Emit => SameFunds(cfg, sys, Next(cfg, sys, act));
    case ExecuteLeg(leg) => ExecuteFunds(cfg, sys, leg);
    case Report(leg) => ReportFunds(cfg, sys, leg);
    case RunTx(k, tx) =>
      var r := TxResult(sys.dbs[k], DefaultLocations(tx, cfg.n), k, tx);
      if r.Some? {
        forall b | b in cfg.brokers ensures Read(r.value, b).balance >= Read(sys.dbs[k], b).balance {
          OthersEarn(sys.dbs[k], DefaultLocations(tx, cfg.n), k, tx, b);
        }
        MoreOnChain(cfg, sys, k, r.value);
      }
    case PruneShard(k) => MoreOnChain(cfg, sys, k, Prune(sys.dbs[k]));
  }

  /** Neither the ledgers nor the chains nor the payments changed. */
  lemma SameFunds(cfg: Cfg, sys: Sys, sys': Sys)
    requires Inv(cfg, sys) && Orderly(cfg, sys')
    requires sys'.dbs == sys.dbs && sys'.executed == sys.executed && sys'.books.mgr.info == sys.books.mgr.info
    requires sys'.books.balance == sys.books.balance && sys'.books.pending == sys.books.pending
    ensures Funded(cfg, sys')
  {
    forall b, j | b in cfg.brokers && 0 <= j < cfg.n ensures Solvent(cfg, sys', b, j) {
      assert Solvent(cfg, sys, b, j);
    }
  }

  lemma {:induction false} RunKeepsInv(cfg: Cfg, acts: seq<Action>)
    requires cfg.n > 0 && Run(cfg, acts).Some? && forall i :: 0 <= i < |acts| ==> NoBrokerSends(cfg, acts[i])
    ensures Inv(cfg, Run(cfg, acts).value)
  {
    if acts == [] {
      InitHolds(cfg);
    } else {
      RunKeepsInv(cfg, acts[..|acts| - 1]);
      StepKeepsInv(cfg, Run(cfg, acts[..|acts| - 1]).value, acts[|acts| - 1]);
    }
  }

  // ----------------------------------------------------------------------------- theorems

  /**
   * Mirrored balance >= pending deduction >= the total value of unconfirmed payments reserved there, in every run in
   * which no other transaction is sent by a broker, however long execution and report take.
   */
  lemma BrokerSolvency(cfg: Cfg, acts: seq<Action>, sys: Sys, b: Acct, k: Shard)
    requires cfg.n > 0 && Run(cfg, acts) == Some(sys) && b in cfg.brokers && k < cfg.n
    requires forall i :: 0 <= i < |acts| ==> NoBrokerSends(cfg, acts[i])
    ensures b in sys.books.balance && b in sys.books.pending && k < |sys.books.balance[b]| && k < |sys.books.pending[b]|
    ensures sys.books.balance[b][k] >= sys.books.pending[b][k] >= Claims(sys, cfg.n, b, k) >= 0
  {
    RunKeepsInv(cfg, acts);
    assert Solvent(cfg, sys, b, k);
    SetSumNonNegative(sys.books.mgr.info.Keys, Claim(sys.books.mgr.info, cfg.n, b, k));
  }

  /** The unchecked debit of a second leg never goes below zero, and the clamp on the pending deduction never fires. */
  lemma DebitsNeverUnderflow(cfg: Cfg, acts: seq<Action>, sys: Sys, leg: Leg)
    requires cfg.n > 0 && Run(cfg, acts) == Some(sys) && leg.sigma == Sigma2
    requires forall i :: 0 <= i < |acts| ==> NoBrokerSends(cfg, acts[i])
    ensures leg in sys.flying ==>
              ShardOf(leg, cfg.n) < |sys.dbs| && Read(sys.dbs[ShardOf(leg, cfg.n)], leg.raw.broker).balance >= leg.raw.body.value
    ensures leg in sys.executed ==>
              && leg.raw.broker in sys.books.pending && ShardOf(leg, cfg.n) < |sys.books.pending[leg.raw.broker]|
              && sys.books.pending[leg.raw.broker][ShardOf(leg, cfg.n)] >= leg.raw.body.value
  {
    RunKeepsInv(cfg, acts);
    if leg in sys.flying { BrokerCanPay(cfg, sys, leg); }
    if leg in sys.executed { ReportIsExact(cfg, sys, leg); }
  }
}
