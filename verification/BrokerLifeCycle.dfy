/** The life cycle of broker payments, over every run. */
module BrokerLifeCycle {
  import opened Prelude
  import opened Accounts
  import opened Transactions
  import opened Execute
  import opened Broker
  import opened StaticBroker
  import opened BrokerSystem

  // ------------------------------------------------------------------------ an orderly state

  ghost predicate NoRepeats(s: seq<TxHash>) {
    forall i, j :: 0 <= i < j < |s| ==> s[i] != s[j]
  }

  /** Ready lists never dangle or repeat. */
  ghost predicate ReadyOk(m: Mgr) {
    && NoRepeats(m.ready1) && NoRepeats(m.ready2)
    && (forall h :: h in m.ready1 ==> h in m.info && m.info[h].stage == WaitConfirm1)
    && (forall h :: h in m.ready2 ==> h in m.info && m.info[h].stage == WaitConfirm2)
  }

  ghost predicate RawsOk(cfg: Cfg, m: Mgr) {
    && cfg.n > 0 && m.nonces.Keys == cfg.brokers
    && (forall h :: h in m.info ==>
          var raw := m.info[h].raw;
          raw.Hash() == h && raw.broker in cfg.brokers && raw.nonce <= m.nonces[raw.broker] && raw.body.value >= 0
          && !IsInner(cfg.brokers, cfg.n, raw.body))
  }

  ghost predicate KeyedByHash(info: map<TxHash, Info>) {
    forall h :: h in info ==> info[h].raw.Hash() == h
  }

  /** A leg under way belongs to an unconfirmed payment that waits for exactly this leg. */
  ghost predicate Wanted(m: Mgr, leg: Leg) {
    var h := leg.raw.Hash();
    && h in m.info && m.info[h].raw == leg.raw
    && (leg.sigma == Sigma1 ==> m.info[h].stage == WaitConfirm1 && h !in m.ready1)
    && (leg.sigma == Sigma2 ==> m.info[h].stage == WaitConfirm2 && h !in m.ready2)
  }

  ghost predicate LegsOk(m: Mgr, flying: set<Leg>, executed: set<Leg>) {
    flying !! executed && forall leg :: leg in flying + executed ==> Wanted(m, leg)
  }

  ghost predicate Orderly(cfg: Cfg, sys: Sys) {
    && BooksShape(sys.books, cfg.n) && |sys.dbs| == cfg.n
    && RawsOk(cfg, sys.books.mgr) && ReadyOk(sys.books.mgr) && LegsOk(sys.books.mgr, sys.flying, sys.executed)
  }

  // ---------------------------------------------------------------------- keeping order

  /** Reserving either leaves the manager alone or creates one raw transaction with one of the brokers tried. */
  lemma {:induction false} ReservedMgr(bk: Books, n: nat, tx: TxBody, order: seq<Acct>) returns (b: Acct)
    requires BooksShape(bk, n) && forall x :: x in order ==> x in bk.balance
    ensures var (bk', raw) := Reserved(bk, n, tx, order);
            && (raw.None? ==> bk'.mgr == bk.mgr)
            && (raw.Some? ==> b in order && CreatedRaw(bk.mgr, tx, b) == Some((bk'.mgr, raw.value)))
    decreases order
  {
    b := 0;
    if order != [] {
      b := order[0];
      var k := DefaultAccountLoc(tx.recipient, n);
      if bk.balance[b][k] - bk.pending[b][k] < tx.value {
        b := ReservedMgr(bk, n, tx, order[1..]);
      } else {
        var held := bk.(pending := Added(bk.pending, b, k, tx.value));
        if CreatedRaw(held.mgr, tx, b).None? { b := ReservedMgr(held, n, tx, order[1..]); }
      }
    }
  }

  /** A new payment is ready for its first leg and disturbs no other. */
  lemma CreatedOrder(cfg: Cfg, m: Mgr, flying: set<Leg>, executed: set<Leg>, tx: TxBody, b: Acct, m': Mgr, raw: Raw)
    requires RawsOk(cfg, m) && ReadyOk(m) && LegsOk(m, flying, executed)
    requires tx.value >= 0 && !IsInner(cfg.brokers, cfg.n, tx) && CreatedRaw(m, tx, b) == Some((m', raw))
    ensures RawsOk(cfg, m') && ReadyOk(m') && LegsOk(m', flying, executed)
  {
    forall leg | leg in flying + executed ensures Wanted(m', leg) {
      assert Wanted(m, leg);
    }
  }

  /** The legs of a ready list are those of its entries, one each. */
  lemma {:induction false} LegsOf(info: map<TxHash, Info>, ready: seq<TxHash>, stage: ConfirmStage)
    requires forall h :: h in ready ==> h in info && info[h].stage == stage
    ensures var legs := LegsFor(info, ready, stage);
            && |legs| == |ready|
            && forall i :: 0 <= i < |ready| ==> legs[i] == Leg(info[ready[i]].raw, if stage == WaitConfirm1 then Sigma1 else Sigma2)
  {
    if ready != [] {
      assert forall h :: h in ready[..|ready| - 1] ==> h in ready;
      LegsOf(info, ready[..|ready| - 1], stage);
      assert ready[|ready| - 1] in ready;
    }
  }

  ghost function NewLegs(m: Mgr): seq<Leg> {
    LegsFor(m.info, m.ready1, WaitConfirm1) + LegsFor(m.info, m.ready2, WaitConfirm2)
  }

  /** Exactly the entries of the ready lists yield legs. */
  lemma NewLegsAre(cfg: Cfg, m: Mgr, leg: Leg)
    requires RawsOk(cfg, m) && ReadyOk(m)
    ensures leg in NewLegs(m) <==>
            var h := leg.raw.Hash();
            h in m.info && m.info[h].raw == leg.raw && (if leg.sigma == Sigma1 then h in m.ready1 else h in m.ready2)
    ensures multiset(NewLegs(m))[leg] <= 1
  {
    LegsOf(m.info, m.ready1, WaitConfirm1);
    LegsOf(m.info, m.ready2, WaitConfirm2);
    var l1, l2 := LegsFor(m.info, m.ready1, WaitConfirm1), LegsFor(m.info, m.ready2, WaitConfirm2);
    OneListLegs(m.info, m.ready1, Sigma1, l1, leg);
    OneListLegs(m.info, m.ready2, Sigma2, l2, leg);
  }

  lemma OneListLegs(info: map<TxHash, Info>, ready: seq<TxHash>, sigma: Sigma, legs: seq<Leg>, leg: Leg)
    requires NoRepeats(ready) && |legs| == |ready| && KeyedByHash(info)
    requires forall i :: 0 <= i < |ready| ==> ready[i] in info && legs[i] == Leg(info[ready[i]].raw, sigma)
    ensures leg in legs <==> leg.sigma == sigma && leg.raw.Hash() in ready && info[leg.raw.Hash()].raw == leg.raw
    ensures multiset(legs)[leg] <= 1
  {
    forall i, j | 0 <= i < j < |legs| ensures legs[i] != legs[j] {
      assert info[ready[i]].raw.Hash() == ready[i] && info[ready[j]].raw.Hash() == ready[j];
    }
    if leg.sigma == sigma && leg.raw.Hash() in ready && info[leg.raw.Hash()].raw == leg.raw {
      var i :| 0 <= i < |ready| && ready[i] == leg.raw.Hash();
      assert legs[i] == leg;
    }
    DistinctOnce(legs, leg);
  }

  lemma {:induction false} DistinctOnce(s: seq<Leg>, x: Leg)
    requires forall i, j :: 0 <= i < j < |s| ==> s[i] != s[j]
    ensures multiset(s)[x] <= 1
  {
    if s != [] {
      var most, last := s[..|s| - 1], s[|s| - 1];
      assert s == most + [last];
      DistinctOnce(most, x);
      assert last !in most;
    }
  }

  lemma EmitOrder(cfg: Cfg, sys: Sys)
    requires Orderly(cfg, sys) && Enabled(cfg, sys, Emit)
    ensures Orderly(cfg, Next(cfg, sys, Emit))
  {
    var m := sys.books.mgr;
    var sys' := Next(cfg, sys, Emit);
    forall leg | leg in sys'.flying + sys'.executed ensures Wanted(sys'.books.mgr, leg) {
      NewLegsAre(cfg, m, leg);
      if leg !in NewLegs(m) { assert Wanted(m, leg); }
    }
    forall leg | leg in LegSet(NewLegs(m)) ensures leg !in sys.executed {
      NewLegsAre(cfg, m, leg);
      assert leg in sys.executed ==> Wanted(m, leg);
    }
  }

  /** A reported leg is always confirmed. */
  lemma ReportOrder(cfg: Cfg, sys: Sys, leg: Leg)
    requires Orderly(cfg, sys) && Enabled(cfg, sys, Report(leg))
    ensures Confirmed(sys.books.mgr, leg).Some?
    ensures Orderly(cfg, Next(cfg, sys, Report(leg)))
  {
    var sys' := Next(cfg, sys, Report(leg));
    assert Wanted(sys.books.mgr, leg);
    forall l | l in sys'.flying + sys'.executed ensures Wanted(sys'.books.mgr, l) {
      assert Wanted(sys.books.mgr, l) && l != leg;
    }
  }

  lemma StepKeepsOrder(cfg: Cfg, sys: Sys, act: Action)
    requires Orderly(cfg, sys) && Enabled(cfg, sys, act)
    ensures Orderly(cfg, Next(cfg, sys, act))
  {
    var sys' := Next(cfg, sys, act);
    match act
    case Accept(tx, order) =>
      var b := ReservedMgr(sys.books, cfg.n, tx, order);
      var (books, raw) := Reserved(sys.books, cfg.n, tx, order);
      if raw.Some? { CreatedOrder(cfg, sys.books.mgr, sys.flying, sys.executed, tx, b, books.mgr, raw.value); }
    case Emit => EmitOrder(cfg, sys);
    case ExecuteLeg(leg) =>
      forall l | l in sys'.flying + sys'.executed ensures Wanted(sys'.books.mgr, l) {
        assert l in sys.flying + sys.executed;
      }
    case Report(leg) => ReportOrder(cfg, sys, leg);
    case RunTx(k, tx) =>
    case PruneShard(k) =>
  }

  lemma {:induction false} RunKeepsOrder(cfg: Cfg, acts: seq<Action>)
    requires cfg.n > 0 && Run(cfg, acts).Some?
    ensures Orderly(cfg, Run(cfg, acts).value)
  {
    if acts != [] {
      RunKeepsOrder(cfg, acts[..|acts| - 1]);
      StepKeepsOrder(cfg, Run(cfg, acts[..|acts| - 1]).value, acts[|acts| - 1]);
    }
  }

  // ------------------------------------------------------------------------------ history

  /** The payment has not been confirmed in full. */
  predicate Current(m: Mgr, r: Raw) { r.Hash() in m.info && m.info[r.Hash()].raw == r }

  predicate FirstConfirmed(m: Mgr, r: Raw) { !Current(m, r) || m.info[r.Hash()].stage == WaitConfirm2 }

  /** The legs of an accepted payment, as they have been emitted and confirmed. */
  ghost predicate Tracked(sys: Sys, r: Raw) {
    var m := sys.books.mgr;
    && sys.emitted[Leg(r, Sigma1)] == (if Current(m, r) && r.Hash() in m.ready1 then 0 else 1)
    && sys.emitted[Leg(r, Sigma2)] == (if !FirstConfirmed(m, r) || (Current(m, r) && r.Hash() in m.ready2) then 0 else 1)
    && (Leg(r, Sigma1) in sys.confirmed <==> FirstConfirmed(m, r))
    && (Leg(r, Sigma2) in sys.confirmed <==> !Current(m, r))
  }

  ghost predicate History(sys: Sys) {
    var m := sys.books.mgr;
    && (forall r :: r in sys.accepted ==> r.broker in m.nonces && r.nonce <= m.nonces[r.broker])
    && (forall i, j :: 0 <= i < j < |sys.accepted| ==>
          (sys.accepted[i].broker, sys.accepted[i].nonce) != (sys.accepted[j].broker, sys.accepted[j].nonce))
    && (forall h :: h in m.info ==> m.info[h].raw in sys.accepted)
    && (forall leg :: leg in sys.emitted || leg in sys.confirmed ==> leg.raw in sys.accepted)
    && (forall r :: r in sys.accepted ==> Tracked(sys, r))
  }

  lemma AcceptTracks(cfg: Cfg, sys: Sys, sys': Sys, tx: TxBody, b: Acct, raw: Raw, r: Raw)
    requires RawsOk(cfg, sys.books.mgr) && ReadyOk(sys.books.mgr) && History(sys) && CreatedRaw(sys.books.mgr, tx, b) == Some((sys'.books.mgr, raw))
    requires sys'.emitted == sys.emitted && sys'.confirmed == sys.confirmed && r in sys.accepted + [raw]
    ensures Tracked(sys', r) && (r in sys.accepted ==> r != raw)
  {
    assert HashOf(tx) !in sys.books.mgr.ready1 && HashOf(tx) !in sys.books.mgr.ready2;
    if r in sys.accepted { assert Tracked(sys, r); } else { assert r == raw; }
  }

  /** One more payment, created by the manager, on an otherwise unchanged history. */
  lemma CreatedHistory(cfg: Cfg, sys: Sys, sys': Sys, tx: TxBody, b: Acct, raw: Raw)
    requires RawsOk(cfg, sys.books.mgr) && ReadyOk(sys.books.mgr) && History(sys) && CreatedRaw(sys.books.mgr, tx, b) == Some((sys'.books.mgr, raw))
    requires sys'.emitted == sys.emitted && sys'.confirmed == sys.confirmed && sys'.accepted == sys.accepted + [raw]
    ensures History(sys')
  {
    forall r | r in sys'.accepted ensures Tracked(sys', r) && (r in sys.accepted ==> r != raw) {
      AcceptTracks(cfg, sys, sys', tx, b, raw, r);
    }
    hide Tracked, RawsOk, ReadyOk;
  }

  lemma SameHistory(sys: Sys, sys': Sys)
    requires History(sys) && sys'.books.mgr == sys.books.mgr
    requires sys'.emitted == sys.emitted && sys'.confirmed == sys.confirmed && sys'.accepted == sys.accepted
    ensures History(sys')
  {
    forall r | r in sys'.accepted ensures Tracked(sys', r) {
      assert Tracked(sys, r);
    }
  }

  lemma AcceptHistory(cfg: Cfg, sys: Sys, tx: TxBody, order: seq<Acct>)
    requires Orderly(cfg, sys) && History(sys) && Enabled(cfg, sys, Accept(tx, order))
    ensures History(Next(cfg, sys, Accept(tx, order)))
  {
    var sys' := Next(cfg, sys, Accept(tx, order));
    var b := ReservedMgr(sys.books, cfg.n, tx, order);
    var (books, raw) := Reserved(sys.books, cfg.n, tx, order);
    hide LegsOk, Reserved, RawsOk, ReadyOk, History, CreatedRaw;
    if raw.Some? {
      CreatedHistory(cfg, sys, sys', tx, b, raw.value);
    } else {
      SameHistory(sys, sys');
    }
  }

  lemma EmitHistory(cfg: Cfg, sys: Sys)
    requires Orderly(cfg, sys) && History(sys) && Enabled(cfg, sys, Emit)
    ensures History(Next(cfg, sys, Emit))
  {
    var m := sys.books.mgr;
    var sys' := Next(cfg, sys, Emit);
    forall leg | leg in sys'.emitted || leg in sys'.confirmed ensures leg.raw in sys.accepted {
      NewLegsAre(cfg, m, leg);
    }
    forall r | r in sys.accepted ensures Tracked(sys', r) {
      assert Tracked(sys, r);
      NewLegsAre(cfg, m, Leg(r, Sigma1));
      NewLegsAre(cfg, m, Leg(r, Sigma2));
    }
  }

  lemma ReportTracks(sys: Sys, sys': Sys, leg: Leg, r: Raw)
    requires Tracked(sys, r) && Wanted(sys.books.mgr, leg) && KeyedByHash(sys.books.mgr.info)
    requires ReadyOk(sys.books.mgr) && Confirmed(sys.books.mgr, leg) == Some(sys'.books.mgr)
    requires sys'.emitted == sys.emitted && sys'.confirmed == sys.confirmed + {leg}
    ensures Tracked(sys', r)
  {
  }

  lemma ConfirmedHistory(sys: Sys, sys': Sys, leg: Leg)
    requires History(sys) && Wanted(sys.books.mgr, leg) && KeyedByHash(sys.books.mgr.info) && ReadyOk(sys.books.mgr)
    requires Confirmed(sys.books.mgr, leg) == Some(sys'.books.mgr)
    requires sys'.accepted == sys.accepted && sys'.emitted == sys.emitted && sys'.confirmed == sys.confirmed + {leg}
    ensures History(sys')
  {
    forall r | r in sys.accepted ensures Tracked(sys', r) {
      ReportTracks(sys, sys', leg, r);
    }
    hide Tracked;
  }

  lemma ReportHistory(cfg: Cfg, sys: Sys, leg: Leg)
    requires Orderly(cfg, sys) && History(sys) && Enabled(cfg, sys, Report(leg))
    ensures History(Next(cfg, sys, Report(leg)))
  {
    assert Wanted(sys.books.mgr, leg);
    ReportOrder(cfg, sys, leg);
    hide History, LegsOk, Wanted, ReadyOk;
    ConfirmedHistory(sys, Next(cfg, sys, Report(leg)), leg);
  }

  lemma StepKeepsHistory(cfg: Cfg, sys: Sys, act: Action)
    requires Orderly(cfg, sys) && History(sys) && Enabled(cfg, sys, act)
    ensures History(Next(cfg, sys, act))
  {
    var sys' := Next(cfg, sys, act);
    match act
    case Accept(tx, order) => AcceptHistory(cfg, sys, tx, order);
    case Emit => EmitHistory(cfg, sys);
    case Report(leg) => ReportHistory(cfg, sys, leg);
    case _ =>
      forall r | r in sys.accepted ensures Tracked(sys', r) {
        assert Tracked(sys, r);
      }
  }

  lemma {:induction false} RunKeepsHistory(cfg: Cfg, acts: seq<Action>)
    requires cfg.n > 0 && Run(cfg, acts).Some?
    ensures History(Run(cfg, acts).value)
  {
    if acts != [] {
      RunKeepsHistory(cfg, acts[..|acts| - 1]);
      RunKeepsOrder(cfg, acts[..|acts| - 1]);
      StepKeepsHistory(cfg, Run(cfg, acts[..|acts| - 1]).value, acts[|acts| - 1]);
    }
  }

  // ----------------------------------------------------------------------------- theorems

  /**
   * Every accepted payment emits its first leg exactly once (it is due in the next emission until then), its second
   * leg at most once, and that only after the first has been confirmed. Payments carry unique broker nonces.
   */
  lemma LifeCycle(cfg: Cfg, acts: seq<Action>, sys: Sys, i: nat)
    requires cfg.n > 0 && Run(cfg, acts) == Some(sys) && i < |sys.accepted|
    ensures var r := sys.accepted[i];
            && sys.emitted[Leg(r, Sigma1)] == (if r.Hash() in sys.books.mgr.ready1 && Current(sys.books.mgr, r) then 0 else 1)
            && sys.emitted[Leg(r, Sigma2)] <= 1
            && (sys.emitted[Leg(r, Sigma2)] == 1 ==> Leg(r, Sigma1) in sys.confirmed)
            && (Leg(r, Sigma1) in sys.confirmed ==> sys.emitted[Leg(r, Sigma1)] == 1)
            && (Leg(r, Sigma2) in sys.confirmed ==> sys.emitted[Leg(r, Sigma2)] == 1)
    ensures forall j :: 0 <= j < |sys.accepted| && j != i ==>
              (sys.accepted[j].broker, sys.accepted[j].nonce) != (sys.accepted[i].broker, sys.accepted[i].nonce)
  {
    RunKeepsHistory(cfg, acts);
    RunKeepsOrder(cfg, acts);
    assert Tracked(sys, sys.accepted[i]);
  }

  lemma HasMember(s: seq<TxHash>)
    ensures s != [] ==> exists h :: h in s
  {
    if s != [] { assert s[0] in s; }
  }

  /** The manager is finished exactly when both legs of every accepted payment have been confirmed. */
  lemma FinishedIff(cfg: Cfg, acts: seq<Action>, sys: Sys)
    requires cfg.n > 0 && Run(cfg, acts) == Some(sys)
    ensures Finished(sys.books.mgr) <==>
            forall r :: r in sys.accepted ==> Leg(r, Sigma1) in sys.confirmed && Leg(r, Sigma2) in sys.confirmed
  {
    RunKeepsHistory(cfg, acts);
    RunKeepsOrder(cfg, acts);
    var m := sys.books.mgr;
    forall r | r in sys.accepted ensures Tracked(sys, r) {
    }
    if forall r :: r in sys.accepted ==> Leg(r, Sigma1) in sys.confirmed && Leg(r, Sigma2) in sys.confirmed {
      forall h ensures h !in m.info {
        assert h in m.info ==> m.info[h].raw in sys.accepted && Current(m, m.info[h].raw);
      }
      assert m.info == map[];
      HasMember(m.ready1);
      HasMember(m.ready2);
    }
  }
}
