/** When a second leg can find its broker without money: exactly when a broker may send transactions of its own. */
module BrokerCounterexample {
  import opened Prelude
  import opened Accounts
  import opened Transactions
  import opened Execute
  import opened Broker
  import opened StaticBroker
  import opened BrokerSystem
  import opened BrokerLifeCycle
  import opened BrokerSolvency

  /** A broker, a payer of another shard, and a payee of the broker's own shard; neither of them is a broker. */
  datatype Scene = Scene(cfg: Cfg, broker: Acct, payer: Acct, payee: Acct)

  ghost predicate IsScene(s: Scene) {
    && s.cfg.n > 0 && s.broker in s.cfg.brokers && s.payer !in s.cfg.brokers && s.payee !in s.cfg.brokers
    && DefaultAccountLoc(s.payee, s.cfg.n) == DefaultAccountLoc(s.broker, s.cfg.n) != DefaultAccountLoc(s.payer, s.cfg.n)
  }

  function Home(s: Scene): Shard requires s.cfg.n > 0 { DefaultAccountLoc(s.broker, s.cfg.n) }
  function Spend(s: Scene): Tx { Tx(TxBody(s.broker, s.payee, NORMAL_INIT_BALANCE, 0), Undetermined, NoHash) }
  function Pay(s: Scene): TxBody { TxBody(s.payer, s.payee, 1, 0) }
  function RawOf(s: Scene): Raw { Raw(Pay(s), s.broker, 1) }
  function First(s: Scene): Leg { Leg(RawOf(s), Sigma1) }
  function Second(s: Scene): Leg { Leg(RawOf(s), Sigma2) }

  /** All money the broker has in its own shard is spent. */
  predicate Drained(s: Scene, sys: Sys)
    requires s.cfg.n > 0
  {
    |sys.dbs| == s.cfg.n && s.broker in sys.dbs[Home(s)] && sys.dbs[Home(s)][s.broker].balance == 0
  }

  /** The manager with the one payment in the given stage and on the given ready lists. */
  ghost predicate MgrAt(s: Scene, m: Mgr, stage: ConfirmStage, ready1: seq<TxHash>, ready2: seq<TxHash>) {
    m.info == map[HashOf(Pay(s)) := Info(RawOf(s), stage)] && m.ready1 == ready1 && m.ready2 == ready2 && m.nonces.Keys == s.cfg.brokers
  }

  ghost predicate After(s: Scene, acts: seq<Action>, sys: Sys) {
    IsScene(s) && Run(s.cfg, acts) == Some(sys) && |sys.dbs| == s.cfg.n && BooksShape(sys.books, s.cfg.n) && Permitted(acts, s.broker)
  }

  /** Nobody but the given account has sent a transaction. */
  ghost predicate Permitted(acts: seq<Action>, sender: Acct) {
    forall i :: 0 <= i < |acts| && acts[i].RunTx? ==> acts[i].tx.Sender() == sender
  }

  lemma One(s: Scene, acts: seq<Action>, sys: Sys, act: Action) returns (sys': Sys)
    requires After(s, acts, sys) && Enabled(s.cfg, sys, act) && (act.RunTx? ==> act.tx.Sender() == s.broker)
    requires |Next(s.cfg, sys, act).dbs| == s.cfg.n && BooksShape(Next(s.cfg, sys, act).books, s.cfg.n)
    ensures After(s, acts + [act], sys') && sys' == Next(s.cfg, sys, act)
  {
    hide Enabled, Next;
    assert (acts + [act])[..|acts|] == acts;
    sys' := Next(s.cfg, sys, act);
  }

  /** The broker spends everything it has in its own shard, where a payment then relies on it. */
  lemma SpentBroker(s: Scene) returns (acts: seq<Action>, sys: Sys)
    requires IsScene(s)
    ensures After(s, acts, sys) && Drained(s, sys) && sys == Init(s.cfg).(dbs := sys.dbs)
    ensures forall k :: 0 <= k < s.cfg.n && k != Home(s) ==> sys.dbs[k] == map[]
  {
    var sys0 := Init(s.cfg);
    var act := RunTx(Home(s), Spend(s));
    assert [] + [act] == [act];
    assert After(s, [], sys0);
    var locs := DefaultLocations(Spend(s), s.cfg.n);
    assert TxResult(map[], locs, Home(s), Spend(s)).Some?;
    acts := [act];
    sys := One(s, [], sys0, act);
  }

  lemma AcceptedPayment(s: Scene, acts: seq<Action>, sys: Sys) returns (sys': Sys)
    requires After(s, acts, sys) && sys == Init(s.cfg).(dbs := sys.dbs)
    ensures After(s, acts + [Accept(Pay(s), [s.broker])], sys')
    ensures sys'.dbs == sys.dbs && sys'.flying == {} && sys'.executed == {}
    ensures MgrAt(s, sys'.books.mgr, WaitConfirm1, [HashOf(Pay(s))], [])
  {
    var m := sys.books.mgr;
    assert m.info == map[] && m.ready1 == [] && m.ready2 == [] && m.nonces[s.broker] == 0 && m.nonces.Keys == s.cfg.brokers;
    assert CreatedRaw(m, Pay(s), s.broker).value.1 == RawOf(s);
    hide TxResult, LegResult, Settled, Prune, Run;
    sys' := One(s, acts, sys, Accept(Pay(s), [s.broker]));
  }

  lemma OneLeg(info: map<TxHash, Info>, h: TxHash, stage: ConfirmStage)
    requires h in info && info[h].stage == stage
    ensures LegsFor(info, [h], stage) == [Leg(info[h].raw, if stage == WaitConfirm1 then Sigma1 else Sigma2)]
  {
    assert [h][..0] == [];
  }

  lemma FirstLegOut(s: Scene, acts: seq<Action>, sys: Sys) returns (sys': Sys)
    requires After(s, acts, sys) && sys.flying == {} && MgrAt(s, sys.books.mgr, WaitConfirm1, [HashOf(Pay(s))], [])
    ensures After(s, acts + [Emit], sys') && sys'.dbs == sys.dbs && sys'.flying == {First(s)}
    ensures MgrAt(s, sys'.books.mgr, WaitConfirm1, [], [])
  {
    hide LegResult, Reserved, Settled, TxResult, Prune, Init, Run;
    OneLeg(sys.books.mgr.info, HashOf(Pay(s)), WaitConfirm1);
    assert [First(s)] + [] == [First(s)];
    sys' := One(s, acts, sys, Emit);
  }

  /** The payer's shard is as new: the payer can pay. */
  lemma FirstLegRuns(s: Scene)
    requires IsScene(s)
    ensures LegResult(map[], s.cfg.n, ShardOf(First(s), s.cfg.n), First(s)).Some?
  {
  }

  lemma FirstLegExecuted(s: Scene, acts: seq<Action>, sys: Sys) returns (sys': Sys)
    requires After(s, acts, sys) && sys.flying == {First(s)} && MgrAt(s, sys.books.mgr, WaitConfirm1, [], []) && Drained(s, sys)
    requires sys.dbs[ShardOf(First(s), s.cfg.n)] == map[]
    ensures After(s, acts + [ExecuteLeg(First(s))], sys') && sys'.books == sys.books && Drained(s, sys') && First(s) in sys'.executed
  {
    FirstLegRuns(s);
    hide LegResult, LegsFor, Reserved, TxResult, Settled, Init, Run;
    sys' := One(s, acts, sys, ExecuteLeg(First(s)));
  }

  lemma FirstLegReported(s: Scene, acts: seq<Action>, sys: Sys) returns (sys': Sys)
    requires After(s, acts, sys) && First(s) in sys.executed && MgrAt(s, sys.books.mgr, WaitConfirm1, [], [])
    ensures After(s, acts + [Report(First(s))], sys') && sys'.dbs == sys.dbs
    ensures MgrAt(s, sys'.books.mgr, WaitConfirm2, [], [HashOf(Pay(s))])
  {
    hide LegResult, LegsFor, Reserved, TxResult, Init, Run;
    sys' := One(s, acts, sys, Report(First(s)));
  }

  lemma SecondLegOut(s: Scene, acts: seq<Action>, sys: Sys) returns (sys': Sys)
    requires After(s, acts, sys) && MgrAt(s, sys.books.mgr, WaitConfirm2, [], [HashOf(Pay(s))])
    ensures After(s, acts + [Emit], sys') && sys'.dbs == sys.dbs && Second(s) in sys'.flying
  {
    hide LegResult, Reserved, Settled, TxResult, Prune, Init, Run;
    OneLeg(sys.books.mgr.info, HashOf(Pay(s)), WaitConfirm2);
    var legs := LegsFor(sys.books.mgr.info, [], WaitConfirm1) + LegsFor(sys.books.mgr.info, [HashOf(Pay(s))], WaitConfirm2);
    assert legs[0] == Second(s);
    sys' := One(s, acts, sys, Emit);
  }

  /** The whole run, up to the second leg on its way to the drained broker. */
  lemma DrainingRun(s: Scene) returns (acts: seq<Action>, sys: Sys)
    requires IsScene(s)
    ensures After(s, acts, sys) && Drained(s, sys) && Second(s) in sys.flying
  {
    acts, sys := SpentBroker(s);
    assert ShardOf(First(s), s.cfg.n) != Home(s);
    hide After, BooksShape, MgrAt, Init;
    sys := AcceptedPayment(s, acts, sys);
    sys := FirstLegOut(s, acts + [Accept(Pay(s), [s.broker])], sys);
    sys := FirstLegExecuted(s, acts + [Accept(Pay(s), [s.broker])] + [Emit], sys);
    sys := FirstLegReported(s, acts + [Accept(Pay(s), [s.broker])] + [Emit] + [ExecuteLeg(First(s))], sys);
    sys := SecondLegOut(s, acts + [Accept(Pay(s), [s.broker])] + [Emit] + [ExecuteLeg(First(s))] + [Report(First(s))], sys);
    acts := acts + [Accept(Pay(s), [s.broker])] + [Emit] + [ExecuteLeg(First(s))] + [Report(First(s))] + [Emit];
  }

  /** Executing the second leg then wraps the broker's balance around to the largest number there is. */
  lemma SecondLegWraps(s: Scene, sys: Sys)
    requires IsScene(s) && Drained(s, sys)
    ensures ShardOf(Second(s), s.cfg.n) == Home(s) && LegResult(sys.dbs[Home(s)], s.cfg.n, Home(s), Second(s)).Some?
    ensures Read(LegResult(sys.dbs[Home(s)], s.cfg.n, Home(s), Second(s)).value, s.broker).balance == UINT256_LIMIT - 1
  {
  }

  // ------------------------------------------------------------------------- the condition

  /** Only the permitted accounts send transactions other than the protocol's legs. */
  ghost predicate Permits(acts: seq<Action>, senders: iset<Acct>) {
    forall i :: 0 <= i < |acts| && acts[i].RunTx? ==> acts[i].tx.Sender() in senders
  }

  /** A second leg is under way to a shard where its broker has less than the payment. */
  ghost predicate Underfunded(cfg: Cfg, acts: seq<Action>, leg: Leg) {
    cfg.n > 0 &&
    match Run(cfg, acts)
    case None => false
    case Some(sys) =>
      leg in sys.flying && leg.sigma == Sigma2 && ShardOf(leg, cfg.n) < |sys.dbs|
      && Read(sys.dbs[ShardOf(leg, cfg.n)], leg.raw.broker).balance < leg.raw.body.value
  }

  ghost predicate NeverWraps(cfg: Cfg, senders: iset<Acct>) {
    forall acts: seq<Action>, leg: Leg :: Permits(acts, senders) ==> !Underfunded(cfg, acts, leg)
  }

  lemma {:induction false} AboveAll(s: set<Acct>) returns (m: nat)
    ensures forall x :: x in s ==> x < m
    decreases s
  {
    if s == {} {
      m := 0;
    } else {
      var x := SomeMember(s);
      var rest := AboveAll(s - {x});
      m := if rest <= x then x + 1 else rest;
      assert forall y :: y in s ==> y == x || y in s - {x};
    }
  }

  /** However many addresses are taken, there is one above them with the same last four bytes. */
  lemma AccountAbove(base: nat, m: nat, n: nat) returns (a: Acct)
    requires n > 0 && base < 0x1_0000_0000
    ensures a >= m && DefaultAccountLoc(a, n) == base % n
  {
    a := base + 0x1_0000_0000 * m;
    assert a % 0x1_0000_0000 == base;
  }

  /** There are always accounts of every kind: the shard depends on the last four bytes only. */
  lemma SceneFor(cfg: Cfg, broker: Acct) returns (s: Scene)
    requires cfg.n >= 2 && broker in cfg.brokers
    ensures IsScene(s) && s.cfg == cfg && s.broker == broker
  {
    var m := AboveAll(cfg.brokers);
    var home := DefaultAccountLoc(broker, cfg.n);
    var payee := AccountAbove(broker % 0x1_0000_0000, m, cfg.n);
    var payer := AccountAbove(if home == 0 then 1 else 0, m, cfg.n);
    assert (if home == 0 then 1 else 0) % cfg.n != home;
    s := Scene(cfg, broker, payer, payee);
  }

  lemma BrokerSenderUnderflows(cfg: Cfg, senders: iset<Acct>, broker: Acct) returns (acts: seq<Action>, leg: Leg)
    requires cfg.n >= 2 && broker in cfg.brokers && broker in senders
    ensures Permits(acts, senders) && Underfunded(cfg, acts, leg)
  {
    var s := SceneFor(cfg, broker);
    var sys;
    acts, sys := DrainingRun(s);
    leg := Second(s);
  }

  /** With one shard every payment is an inner one, and there is no leg to send. */
  lemma OneShardNoLegs(cfg: Cfg, sys: Sys)
    requires cfg.n == 1 && Orderly(cfg, sys)
    ensures sys.flying == {}
  {
    forall leg: Leg ensures leg !in sys.flying {
      assert leg in sys.flying ==> leg in sys.flying + sys.executed;
      OneShardInner(cfg, leg.raw.body);
    }
  }

  lemma OneShardInner(cfg: Cfg, tx: TxBody)
    requires cfg.n == 1
    ensures IsInner(cfg.brokers, cfg.n, tx)
  {
    assert DefaultAccountLoc(tx.sender, 1) == 0 == DefaultAccountLoc(tx.recipient, 1);
  }

  lemma HonestSenders(cfg: Cfg, senders: iset<Acct>, acts: seq<Action>, leg: Leg)
    requires cfg.n > 0 && (cfg.n < 2 || forall b :: b in cfg.brokers ==> b !in senders) && Permits(acts, senders)
    ensures !Underfunded(cfg, acts, leg)
  {
    if Underfunded(cfg, acts, leg) {
      var sys := Run(cfg, acts).value;
      if cfg.n < 2 {
        RunKeepsOrder(cfg, acts);
        OneShardNoLegs(cfg, sys);
      } else {
        forall i | 0 <= i < |acts| ensures NoBrokerSends(cfg, acts[i]) {
        }
        DebitsNeverUnderflow(cfg, acts, sys, leg);
      }
    }
  }

  /**
   * No second leg ever finds its broker short of money, in any run, if and only if no account that may send
   * transactions is a broker; or there is one shard only, where the brokers have nothing to do.
   */
  lemma NeverWrapsExactlyWhen(cfg: Cfg, senders: iset<Acct>)
    requires cfg.n > 0
    ensures NeverWraps(cfg, senders) <==> (cfg.n < 2 || forall b :: b in cfg.brokers ==> b !in senders)
  {
    if cfg.n < 2 || forall b :: b in cfg.brokers ==> b !in senders {
      forall acts: seq<Action>, leg: Leg | Permits(acts, senders) ensures !Underfunded(cfg, acts, leg) {
        HonestSenders(cfg, senders, acts, leg);
      }
    } else {
      var b :| b in cfg.brokers && b in senders;
      var acts, leg := BrokerSenderUnderflows(cfg, senders, b);
    }
  }
}
