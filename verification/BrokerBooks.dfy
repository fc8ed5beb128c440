/** The committee's two ledgers: which reservation a payment gets, and what exactly the ledgers hold in every run. */
module BrokerBooks {
  import opened Prelude
  import opened Accounts
  import opened Transactions
  import opened Execute
  import opened Broker
  import opened StaticBroker
  import opened BrokerSystem
  import opened BrokerLifeCycle
  import opened BrokerSolvency
  import opened BrokerPayments
  import BrokerRouting

  /** The broker has as much left in the recipient's shard, beyond what it has promised there, as the payment needs. */
  predicate CanReserve(bk: Books, n: nat, tx: TxBody, b: Acct)
    requires BooksShape(bk, n) && b in bk.balance
  {
    var k := DefaultAccountLoc(tx.recipient, n);
    bk.balance[b][k] >= bk.pending[b][k] + tx.value
  }

  /**
   * A payment that is not already under way goes to the first broker, in the order of asking, that has enough left in
   * the recipient's shard; exactly its value is set aside there, and nothing else changes. It gets no broker only if
   * none has enough, and then nothing changes at all.
   */
  lemma {:induction false} ReservationIs(bk: Books, n: nat, tx: TxBody, order: seq<Acct>) returns (i: nat)
    requires BooksShape(bk, n) && (forall b :: b in order ==> b in bk.balance) && HashOf(tx) !in bk.mgr.info
    ensures var (bk', raw) := Reserved(bk, n, tx, order);
            && (raw.None? ==> bk' == bk && forall b :: b in order ==> !CanReserve(bk, n, tx, b))
            && (raw.Some? ==>
                  && i < |order| && CanReserve(bk, n, tx, order[i]) && (forall j :: 0 <= j < i ==> !CanReserve(bk, n, tx, order[j]))
                  && raw.value == Raw(tx, order[i], bk.mgr.nonces[order[i]] + 1)
                  && bk'.balance == bk.balance
                  && bk'.pending == Added(bk.pending, order[i], DefaultAccountLoc(tx.recipient, n), tx.value)
                  && CreatedRaw(bk.mgr, tx, order[i]) == Some((bk'.mgr, raw.value)))
    decreases order
  {
    i := 0;
    if order != [] && !CanReserve(bk, n, tx, order[0]) {
      i := ReservationIs(bk, n, tx, order[1..]);
      i := i + 1;
      assert forall b :: b in order ==> b == order[0] || b in order[1..];
    }
  }

  /**
   * A payment that is already under way is refused, after every broker asked that has enough left has set its value
   * aside: those amounts are never released.
   */
  lemma {:induction false} RefusalLeaks(bk: Books, n: nat, tx: TxBody, order: seq<Acct>, b: Acct, k: Shard)
    requires BooksShape(bk, n) && (forall x :: x in order ==> x in bk.balance) && HashOf(tx) in bk.mgr.info
    requires (forall i, j :: 0 <= i < j < |order| ==> order[i] != order[j]) && b in bk.balance && k < n
    ensures var (bk', raw) := Reserved(bk, n, tx, order);
            && raw.None? && bk'.balance == bk.balance && bk'.mgr == bk.mgr
            && bk'.pending[b][k] == bk.pending[b][k] +
                 if b in order && k == DefaultAccountLoc(tx.recipient, n) && CanReserve(bk, n, tx, b) then tx.value else 0
    decreases order
  {
    if order != [] {
      var c := order[0];
      assert forall x :: x in order <==> x == c || x in order[1..];
      assert c !in order[1..];
      if CanReserve(bk, n, tx, c) {
        RefusalLeaks(bk.(pending := Added(bk.pending, c, DefaultAccountLoc(tx.recipient, n), tx.value)), n, tx, order[1..], b, k);
      } else {
        RefusalLeaks(bk, n, tx, order[1..], b, k);
      }
    }
  }

  // --------------------------------------------------------------------- the mirrored balance

  lemma ExecutedIsUnconfirmed(cfg: Cfg, sys: Sys, leg: Leg)
    requires Orderly(cfg, sys) && History(sys) && leg in sys.executed
    ensures leg !in sys.confirmed && leg.raw.broker in cfg.brokers && leg.raw.body.sender !in cfg.brokers && leg.raw.body.recipient !in cfg.brokers
  {
    assert Wanted(sys.books.mgr, leg);
    assert Tracked(sys, leg.raw);
  }

  /** A confirmed leg earns or costs its broker what it did on chain. */
  lemma ConfirmedMirror(bk: Books, n: nat, leg: Leg, b: Acct, k: Shard)
    requires BooksShape(bk, n) && Confirmed(bk.mgr, leg).Some? && b in bk.balance && k < n
    requires leg.raw.body.sender !in bk.balance && leg.raw.body.recipient !in bk.balance
    ensures var bk' := Settled(bk, ShardOf(leg, n), leg);
            b in bk'.balance && |bk'.balance[b]| == n && bk'.balance[b][k] == bk.balance[b][k] + Share(n, b, k)(leg)
  {
  }

  lemma ReportMirror(cfg: Cfg, sys: Sys, leg: Leg, b: Acct, k: Shard)
    requires Orderly(cfg, sys) && History(sys) && Enabled(cfg, sys, Report(leg)) && b in cfg.brokers && k < cfg.n
    ensures var sys' := Next(cfg, sys, Report(leg));
            && b in sys'.books.balance && |sys'.books.balance[b]| == cfg.n && b in sys.books.balance
            && sys'.books.balance[b][k] - sys.books.balance[b][k]
               == SetSum(sys'.confirmed, Share(cfg.n, b, k)) - SetSum(sys.confirmed, Share(cfg.n, b, k))
  {
    ExecutedIsUnconfirmed(cfg, sys, leg);
    ReportOrder(cfg, sys, leg);
    ConfirmedMirror(sys.books, cfg.n, leg, b, k);
    hide Orderly, History, Settled, Share;
    var all := sys.confirmed + {leg};
    assert all - {leg} == sys.confirmed;
    SetSumWithout(all, Share(cfg.n, b, k), leg);
  }

  lemma MirrorStep(cfg: Cfg, sys: Sys, act: Action, b: Acct, k: Shard)
    requires Orderly(cfg, sys) && History(sys) && Enabled(cfg, sys, act) && b in cfg.brokers && k < cfg.n
    ensures var sys' := Next(cfg, sys, act);
            && b in sys'.books.balance && |sys'.books.balance[b]| == cfg.n && b in sys.books.balance
            && sys'.books.balance[b][k] - sys.books.balance[b][k]
               == SetSum(sys'.confirmed, Share(cfg.n, b, k)) - SetSum(sys.confirmed, Share(cfg.n, b, k))
  {
    match act
    case Accept(tx, order) => BrokerRouting.KeepsBalance(sys.books, cfg.n, tx, order);
    case Report(leg) => ReportMirror(cfg, sys, leg, b, k);
    case _ =>
  }

  /**
   * The mirrored balance is exact: in every run, whoever sends, it is the broker's initial balance and its share of
   * every confirmed leg.
   */
  lemma {:induction false} MirrorIsExact(cfg: Cfg, acts: seq<Action>, sys: Sys, b: Acct, k: Shard)
    requires cfg.n > 0 && Run(cfg, acts) == Some(sys) && b in cfg.brokers && k < cfg.n
    ensures BooksShape(sys.books, cfg.n) && b in sys.books.balance
    ensures sys.books.balance[b][k] == BROKER_INIT_BALANCE + SetSum(sys.confirmed, Share(cfg.n, b, k))
  {
    RunKeepsOrder(cfg, acts);
    if acts != [] {
      var most, last := acts[..|acts| - 1], acts[|acts| - 1];
      var mid := Run(cfg, most).value;
      MirrorIsExact(cfg, most, mid, b, k);
      RunKeepsOrder(cfg, most);
      RunKeepsHistory(cfg, most);
      hide Orderly, History, Enabled, Next, Share;
      MirrorStep(cfg, mid, last, b, k);
    }
  }

  lemma {:induction false} SetSumUnion<T(!new)>(s: set<T>, t: set<T>, f: T -> int)
    requires s !! t
    ensures SetSum(s + t, f) == SetSum(s, f) + SetSum(t, f)
    decreases t
  {
    if t == {} {
      assert s + t == s;
    } else {
      var x := SomeMember(t);
      SetSumWithout(t, f, x);
      SetSumWithout(s + t, f, x);
      assert s + t - {x} == s + (t - {x});
      SetSumUnion(s, t - {x}, f);
    }
  }

  /**
   * Mirror and chain differ by exactly the legs that have been executed and not yet reported, and by what plain
   * transactions paid to the broker, in every run in which no broker sends.
   */
  lemma MirrorFollowsChain(cfg: Cfg, acts: seq<Action>, sys: Sys, b: Acct, k: Shard)
    requires cfg.n > 0 && Run(cfg, acts) == Some(sys) && b in cfg.brokers && k < cfg.n
    requires forall i :: 0 <= i < |acts| ==> NoBrokerSends(cfg, acts[i])
    ensures BooksShape(sys.books, cfg.n) && b in sys.books.balance && |sys.dbs| == cfg.n
    ensures Read(sys.dbs[k], b).balance ==
            sys.books.balance[b][k] + SetSum(sys.executed, Share(cfg.n, b, k)) + PlainMoney(cfg, acts, b, k)
  {
    BalanceIsLegs(cfg, acts, sys, b, k);
    MirrorIsExact(cfg, acts, sys, b, k);
    RunKeepsOrder(cfg, acts);
    RunKeepsHistory(cfg, acts);
    forall leg | leg in sys.executed ensures leg !in sys.confirmed {
      ExecutedIsUnconfirmed(cfg, sys, leg);
    }
    SetSumUnion(sys.executed, sys.confirmed, Share(cfg.n, b, k));
  }

  // -------------------------------------------------------------------- the pending deduction

  /** What a refused payment leaves reserved with broker b in shard k. */
  ghost function LeakedBy(cfg: Cfg, sys: Sys, act: Action, b: Acct, k: Shard): int
    requires b in cfg.brokers && k < cfg.n
  {
    if !act.Accept? || !Enabled(cfg, sys, act) || HashOf(act.payment) !in sys.books.mgr.info then 0 else
    var after := Reserved(sys.books, cfg.n, act.payment, act.order).0.pending;
    if b in after then after[b][k] - sys.books.pending[b][k] else 0
  }

  ghost function Leaked(cfg: Cfg, acts: seq<Action>, b: Acct, k: Shard): int
    requires b in cfg.brokers && k < cfg.n
  {
    if acts == [] then 0 else
    var most, last := acts[..|acts| - 1], acts[|acts| - 1];
    Leaked(cfg, most, b, k) + match Run(cfg, most) case None => 0 case Some(sys) => LeakedBy(cfg, sys, last, b, k)
  }

  lemma AcceptPending(cfg: Cfg, sys: Sys, tx: TxBody, order: seq<Acct>, b: Acct, k: Shard)
    requires Orderly(cfg, sys) && Enabled(cfg, sys, Accept(tx, order)) && b in cfg.brokers && k < cfg.n
    ensures var sys' := Next(cfg, sys, Accept(tx, order));
            && BooksShape(sys'.books, cfg.n) && b in sys'.books.pending && b in sys.books.pending
            && (sys'.books.pending[b][k] - Claims(sys', cfg.n, b, k)) - (sys.books.pending[b][k] - Claims(sys, cfg.n, b, k))
               == if HashOf(tx) in sys.books.mgr.info then sys'.books.pending[b][k] - sys.books.pending[b][k] else 0
  {
    var (books, raw) := Reserved(sys.books, cfg.n, tx, order);
    if HashOf(tx) in sys.books.mgr.info {
      var c := ReservedMgr(sys.books, cfg.n, tx, order);
    } else {
      var i := ReservationIs(sys.books, cfg.n, tx, order);
      if raw.Some? { CreatedClaims(cfg, sys, books.mgr, raw.value, tx, order[i], b, k); }
    }
  }

  lemma ReportPending(cfg: Cfg, sys: Sys, leg: Leg, b: Acct, k: Shard)
    requires Inv(cfg, sys) && Enabled(cfg, sys, Report(leg)) && b in cfg.brokers && k < cfg.n
    ensures var sys' := Next(cfg, sys, Report(leg));
            && BooksShape(sys'.books, cfg.n) && b in sys'.books.pending && b in sys.books.pending
            && sys'.books.pending[b][k] - Claims(sys', cfg.n, b, k) == sys.books.pending[b][k] - Claims(sys, cfg.n, b, k)
  {
    var sys' := Next(cfg, sys, Report(leg));
    ReportIsExact(cfg, sys, leg);
    StepKeepsOrder(cfg, sys, Report(leg));
    assert Wanted(sys.books.mgr, leg);
    if leg.sigma == Sigma1 {
      ReportFirstSums(cfg, sys, sys'.books.mgr, leg, b, k);
    } else {
      assert Leg(leg.raw, Sigma1) in sys.executed ==> Wanted(sys.books.mgr, Leg(leg.raw, Sigma1));
      ReportSecondSums(cfg, sys, sys'.books.mgr, leg, b, k);
      SettledSecond(sys.books, cfg.n, leg, b, k);
    }
    hide LegsOk, ReadyOk, RawsOk, Funded, Claim, Unheard;
  }

  lemma PendingStep(cfg: Cfg, sys: Sys, act: Action, b: Acct, k: Shard)
    requires Inv(cfg, sys) && Enabled(cfg, sys, act) && b in cfg.brokers && k < cfg.n && !act.Accept?
    ensures var sys' := Next(cfg, sys, act);
            && BooksShape(sys'.books, cfg.n) && b in sys'.books.pending && b in sys.books.pending
            && sys'.books.pending[b][k] - Claims(sys', cfg.n, b, k) == sys.books.pending[b][k] - Claims(sys, cfg.n, b, k)
  {
    match act
    case Report(leg) => ReportPending(cfg, sys, leg, b, k);
    case _ =>
  }

  /**
   * The pending deduction is exact: the value of the unconfirmed payments reserved there, and what refused payments
   * have left behind, in every run in which no broker sends.
   */
  lemma {:induction false} PendingIsExact(cfg: Cfg, acts: seq<Action>, sys: Sys, b: Acct, k: Shard)
    requires cfg.n > 0 && Run(cfg, acts) == Some(sys) && b in cfg.brokers && k < cfg.n
    requires forall i :: 0 <= i < |acts| ==> NoBrokerSends(cfg, acts[i])
    ensures BooksShape(sys.books, cfg.n) && b in sys.books.pending
    ensures sys.books.pending[b][k] == Claims(sys, cfg.n, b, k) + Leaked(cfg, acts, b, k)
  {
    BrokerSolvency.RunKeepsInv(cfg, acts);
    if acts != [] {
      var most, last := acts[..|acts| - 1], acts[|acts| - 1];
      var mid := Run(cfg, most).value;
      PendingIsExact(cfg, most, mid, b, k);
      BrokerSolvency.RunKeepsInv(cfg, most);
      hide Inv, Claims;
      if last.Accept? {
        AcceptPending(cfg, mid, last.payment, last.order, b, k);
      } else {
        PendingStep(cfg, mid, last, b, k);
      }
    }
  }
}
