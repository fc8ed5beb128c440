/** What broker payments do to the balances of their payers, payees and brokers, over every run. */
module BrokerPayments {
  import opened Prelude
  import opened Accounts
  import opened Transactions
  import opened Execute
  import opened Broker
  import opened StaticBroker
  import opened BrokerSystem
  import opened BrokerLifeCycle
  import opened BrokerSolvency

  /** What a leg means for account a in shard k. */
  function Share(n: nat, a: Acct, k: Shard): Leg -> int
    requires n > 0
  {
    (leg: Leg) =>
      var tx, b := leg.raw.body, leg.raw.broker;
      match leg.sigma
      case Sigma1 =>
        if DefaultAccountLoc(tx.sender, n) != k then 0 else (if a == b then tx.value else 0) - (if a == tx.sender then tx.value else 0)
      case Sigma2 =>
        if DefaultAccountLoc(tx.recipient, n) != k then 0 else (if a == tx.recipient then tx.value else 0) - (if a == b then tx.value else 0)
  }

  /** What a whole payment means for account a in shard k: the payer pays, the payee is paid, the broker passes it on. */
  function PaymentShare(n: nat, a: Acct, k: Shard): Raw -> int
    requires n > 0
  {
    (r: Raw) =>
      var source, target, v := DefaultAccountLoc(r.body.sender, n), DefaultAccountLoc(r.body.recipient, n), r.body.value;
      (if a == r.body.recipient && k == target then v else 0) - (if a == r.body.sender && k == source then v else 0)
      + (if a == r.broker && k == source then v else 0) - (if a == r.broker && k == target then v else 0)
  }

  /** The legs that have been executed, reported or not. */
  ghost function Done(sys: Sys): set<Leg> { sys.executed + sys.confirmed }

  predicate IsPlain(act: Action) { act.RunTx? || act.PruneShard? }

  /** What everything but the legs has done to the balance: plain transactions, and emptied accounts that start anew. */
  ghost function PlainMoney(cfg: Cfg, acts: seq<Action>, a: Acct, k: Shard): int {
    if acts == [] then 0 else
    var most, last := acts[..|acts| - 1], acts[|acts| - 1];
    PlainMoney(cfg, most, a, k) +
    match Run(cfg, most)
    case None => 0
    case Some(sys) =>
      if IsPlain(last) && Enabled(cfg, sys, last) && k < |sys.dbs| && k < |Next(cfg, sys, last).dbs|
      then Read(Next(cfg, sys, last).dbs[k], a).balance - Read(sys.dbs[k], a).balance else 0
  }

  /** A leg under way has not been executed before. */
  lemma FlyingIsNew(cfg: Cfg, sys: Sys, leg: Leg)
    requires Orderly(cfg, sys) && History(sys) && leg in sys.flying
    ensures leg !in Done(sys)
  {
    assert Wanted(sys.books.mgr, leg);
    assert Tracked(sys, leg.raw);
  }

  lemma ExecuteMoves(cfg: Cfg, sys: Sys, leg: Leg, a: Acct, k: Shard)
    requires Inv(cfg, sys) && History(sys) && Enabled(cfg, sys, ExecuteLeg(leg)) && k < cfg.n
    ensures var sys' := Next(cfg, sys, ExecuteLeg(leg));
            && |sys'.dbs| == cfg.n
            && Read(sys'.dbs[k], a).balance - Read(sys.dbs[k], a).balance
               == SetSum(Done(sys'), Share(cfg.n, a, k)) - SetSum(Done(sys), Share(cfg.n, a, k))
  {
    var sys', s := Next(cfg, sys, ExecuteLeg(leg)), ShardOf(leg, cfg.n);
    FlyingIsNew(cfg, sys, leg);
    var db := LegResult(sys.dbs[s], cfg.n, s, leg);
    if leg.sigma == Sigma2 { BrokerCanPay(cfg, sys, leg); }
    if db.Some? {
      assert Done(sys') - {leg} == Done(sys) && leg in Done(sys');
      SetSumWithout(Done(sys'), Share(cfg.n, a, k), leg);
      LegMovesValue(sys.dbs[s], cfg.n, s, leg, a);
    } else {
      assert Done(sys') == Done(sys);
    }
    hide LegResult, Orderly, Funded, History;
  }

  /** Only executing legs adds to what is done, and nothing but that and plain steps changes a balance. */
  lemma OtherSteps(cfg: Cfg, sys: Sys, act: Action)
    requires Inv(cfg, sys) && History(sys) && Enabled(cfg, sys, act) && !act.ExecuteLeg?
    ensures var sys' := Next(cfg, sys, act); Done(sys') == Done(sys) && |sys'.dbs| == cfg.n && (!IsPlain(act) ==> sys'.dbs == sys.dbs)
  {
    if act.Report? { ReportIsExact(cfg, sys, act.leg); }
    hide Funded, History, Claims;
  }

  lemma StepMoves(cfg: Cfg, sys: Sys, act: Action, a: Acct, k: Shard)
    requires Inv(cfg, sys) && History(sys) && Enabled(cfg, sys, act) && k < cfg.n
    ensures var sys' := Next(cfg, sys, act);
            && |sys'.dbs| == cfg.n
            && (IsPlain(act) ==> Done(sys') == Done(sys))
            && (!IsPlain(act) ==> Read(sys'.dbs[k], a).balance - Read(sys.dbs[k], a).balance
                                  == SetSum(Done(sys'), Share(cfg.n, a, k)) - SetSum(Done(sys), Share(cfg.n, a, k)))
  {
    hide Inv, History, Enabled, Next, Done, Share, Read;
    if act.ExecuteLeg? { ExecuteMoves(cfg, sys, act.leg, a, k); } else { OtherSteps(cfg, sys, act); }
  }

  /**
   * The balance of any account in any shard, in every run in which no broker sends transactions of its own: the
   * initial balance, what plain transactions did, and the share of every executed leg, once each.
   */
  lemma {:induction false} BalanceIsLegs(cfg: Cfg, acts: seq<Action>, sys: Sys, a: Acct, k: Shard)
    requires cfg.n > 0 && Run(cfg, acts) == Some(sys) && k < cfg.n
    requires forall i :: 0 <= i < |acts| ==> NoBrokerSends(cfg, acts[i])
    ensures |sys.dbs| == cfg.n
    ensures Read(sys.dbs[k], a).balance == NORMAL_INIT_BALANCE + PlainMoney(cfg, acts, a, k) + SetSum(Done(sys), Share(cfg.n, a, k))
  {
    if acts == [] {
    } else {
      var most, last := acts[..|acts| - 1], acts[|acts| - 1];
      var mid := Run(cfg, most).value;
      BalanceIsLegs(cfg, most, mid, a, k);
      RunKeepsInv(cfg, most);
      RunKeepsHistory(cfg, most);
      hide Inv, History, Enabled, Next, Share;
      StepMoves(cfg, mid, last, a, k);
    }
  }

  /**
   * Once both legs of an accepted payment are confirmed, each has been executed: take the two out of the account, and
   * what is missing is exactly that the payer has paid once and the payee has been paid once, in their own shards.
   */
  lemma PaymentSettles(cfg: Cfg, acts: seq<Action>, sys: Sys, r: Raw, a: Acct, k: Shard)
    requires cfg.n > 0 && Run(cfg, acts) == Some(sys) && k < cfg.n && r in sys.accepted
    requires forall i :: 0 <= i < |acts| ==> NoBrokerSends(cfg, acts[i])
    requires Leg(r, Sigma1) in sys.confirmed && Leg(r, Sigma2) in sys.confirmed
    ensures |sys.dbs| == cfg.n
    ensures Read(sys.dbs[k], a).balance ==
            NORMAL_INIT_BALANCE + PlainMoney(cfg, acts, a, k) + PaymentShare(cfg.n, a, k)(r)
            + SetSum(Done(sys) - {Leg(r, Sigma1)} - {Leg(r, Sigma2)}, Share(cfg.n, a, k))
  {
    BalanceIsLegs(cfg, acts, sys, a, k);
    SetSumWithout(Done(sys), Share(cfg.n, a, k), Leg(r, Sigma1));
    SetSumWithout(Done(sys) - {Leg(r, Sigma1)}, Share(cfg.n, a, k), Leg(r, Sigma2));
  }

  ghost function LegsOfAll(rs: seq<Raw>): set<Leg> {
    if rs == [] then {} else LegsOfAll(rs[..|rs| - 1]) + {Leg(rs[|rs| - 1], Sigma1), Leg(rs[|rs| - 1], Sigma2)}
  }

  lemma OneOfTwo(leg: Leg)
    ensures leg == Leg(leg.raw, Sigma1) || leg == Leg(leg.raw, Sigma2)
  {
    match leg.sigma
    case Sigma1 =>
    case Sigma2 =>
  }

  lemma {:induction false} LegsMembers(rs: seq<Raw>, leg: Leg)
    ensures leg in LegsOfAll(rs) <==> leg.raw in rs
  {
    if rs != [] {
      LegsMembers(rs[..|rs| - 1], leg);
      assert rs == rs[..|rs| - 1] + [rs[|rs| - 1]];
      OneOfTwo(leg);
    }
  }

  lemma {:induction false} PaymentsSumUp(rs: seq<Raw>, n: nat, a: Acct, k: Shard)
    requires n > 0 && forall i, j :: 0 <= i < j < |rs| ==> rs[i] != rs[j]
    ensures SetSum(LegsOfAll(rs), Share(n, a, k)) == SeqSum(rs, PaymentShare(n, a, k))
  {
    if rs != [] {
      var most, r := rs[..|rs| - 1], rs[|rs| - 1];
      PaymentsSumUp(most, n, a, k);
      var all, l1, l2 := LegsOfAll(rs), Leg(r, Sigma1), Leg(r, Sigma2);
      LegsMembers(most, l1);
      LegsMembers(most, l2);
      SetSumWithout(all, Share(n, a, k), l1);
      SetSumWithout(all - {l1}, Share(n, a, k), l2);
      assert all - {l1} - {l2} == LegsOfAll(most);
    }
  }

  /** When the manager is finished, exactly the legs of all accepted payments have been executed. */
  lemma FinishedLegs(cfg: Cfg, acts: seq<Action>, sys: Sys, leg: Leg)
    requires cfg.n > 0 && Run(cfg, acts) == Some(sys) && Finished(sys.books.mgr)
    ensures leg in Done(sys) <==> leg in LegsOfAll(sys.accepted)
  {
    FinishedIff(cfg, acts, sys);
    RunKeepsHistory(cfg, acts);
    RunKeepsOrder(cfg, acts);
    hide ReadyOk, RawsOk, Tracked;
    LegsMembers(sys.accepted, leg);
    OneOfTwo(leg);
    assert leg in sys.executed ==> Wanted(sys.books.mgr, leg);
  }

  /** The same accepted payment never occurs twice. */
  lemma AcceptedOnce(cfg: Cfg, acts: seq<Action>, sys: Sys)
    requires cfg.n > 0 && Run(cfg, acts) == Some(sys)
    ensures forall i, j :: 0 <= i < j < |sys.accepted| ==> sys.accepted[i] != sys.accepted[j]
  {
    RunKeepsHistory(cfg, acts);
  }

  /** When the manager is finished, every balance is what the accepted payments make of it, each counted in full and once. */
  lemma AllIsPaid(cfg: Cfg, acts: seq<Action>, sys: Sys, a: Acct, k: Shard)
    requires cfg.n > 0 && Run(cfg, acts) == Some(sys) && k < cfg.n && Finished(sys.books.mgr)
    requires forall i :: 0 <= i < |acts| ==> NoBrokerSends(cfg, acts[i])
    ensures |sys.dbs| == cfg.n
    ensures Read(sys.dbs[k], a).balance ==
            NORMAL_INIT_BALANCE + PlainMoney(cfg, acts, a, k) + SeqSum(sys.accepted, PaymentShare(cfg.n, a, k))
  {
    BalanceIsLegs(cfg, acts, sys, a, k);
    AcceptedOnce(cfg, acts, sys);
    PaymentsSumUp(sys.accepted, cfg.n, a, k);
    hide Run, Share, PlainMoney, Read;
    forall leg ensures leg in Done(sys) <==> leg in LegsOfAll(sys.accepted) {
      FinishedLegs(cfg, acts, sys, leg);
    }
    assert Done(sys) == LegsOfAll(sys.accepted);
  }
}
