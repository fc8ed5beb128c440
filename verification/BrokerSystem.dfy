/** The broker protocol as a transition system: committee, legs in flight, and the shards that execute them. */
module BrokerSystem {
  import opened Prelude
  import opened Accounts
  import opened Transactions
  import opened Execute
  import opened Broker
  import opened StaticBroker

  // ------------------------------------------------------------------------- execution

  function TouchBroker(db: StateDB, b: Acct): StateDB {
    if b in db then db else db[b := AcctState(BROKER_INIT_BALANCE, 0)]
  }

  /** A debit without a balance check wraps around below zero. */
  function DebitUnchecked(db: StateDB, a: Acct, v: nat): StateDB
    requires a in db && v < UINT256_LIMIT
  {
    db[a := db[a].(balance := if db[a].balance >= v then db[a].balance - v else db[a].balance + UINT256_LIMIT - v)]
  }

  function LegResult(db: StateDB, n: nat, shard: Shard, leg: Leg): Option<StateDB>
    requires n > 0
  {
    var raw, v := leg.raw, leg.raw.body.value;
    if !FitsUInt256(v) then None else
    match leg.sigma
    case Sigma1 =>
      if SourceShard(raw, n) != shard then Some(db) else
      var d := TouchBroker(Touch(db, raw.body.sender), raw.broker);
      if d[raw.body.sender].balance < v then None else
      Some(Credit(Debit(d, raw.body.sender, v), raw.broker, v))
    case Sigma2 =>
      if TargetShard(raw, n) != shard then Some(db) else
      var d := TouchBroker(Touch(db, raw.body.recipient), raw.broker);
      Some(Credit(DebitUnchecked(d, raw.broker, v), raw.body.recipient, v))
  }

  method BrokerTxExecute(v: Executor, n: nat, shard: Shard, leg: Leg) returns (ok: bool)
    requires n > 0
    modifies v
    ensures ok <==> LegResult(old(v.db), n, shard, leg).Some?
    ensures ok ==> v.db == LegResult(old(v.db), n, shard, leg).value
    ensures !ok ==> forall a :: Read(v.db, a) == Read(old(v.db), a)
  {
    var raw, value := leg.raw, leg.raw.body.value;
    if !FitsUInt256(value) { return false; }
    match leg.sigma {
      case Sigma1 =>
        if SourceShard(raw, n) != shard { return true; }
        v.SetInitBalanceIfNotExist([raw.body.sender]);
        SameReads(v.db, Touch(old(v.db), raw.body.sender));
        if raw.broker !in v.db { v.db := v.db[raw.broker := AcctState(BROKER_INIT_BALANCE, 0)]; }
        if v.db[raw.body.sender].balance < value { return false; }
        v.db := Debit(v.db, raw.body.sender, value);
        v.db := Credit(v.db, raw.broker, value);
      case Sigma2 =>
        if TargetShard(raw, n) != shard { return true; }
        v.SetInitBalanceIfNotExist([raw.body.recipient]);
        SameReads(v.db, Touch(old(v.db), raw.body.recipient));
        if raw.broker !in v.db { v.db := v.db[raw.broker := AcctState(BROKER_INIT_BALANCE, 0)]; }
        v.db := DebitUnchecked(v.db, raw.broker, value);
        v.db := Credit(v.db, raw.body.recipient, value);
    }
    return true;
  }

  /**
   * What a leg does on chain, on every account as a reader sees it. A first leg moves its value from sender to broker
   * in the sender's shard, a second leg from broker to recipient in the recipient's shard, as long as the broker can
   * pay; elsewhere nothing happens, and no nonce ever changes.
   */
  lemma LegMovesValue(db: StateDB, n: nat, shard: Shard, leg: Leg, a: Acct)
    requires n > 0 && LegResult(db, n, shard, leg).Some?
    requires leg.sigma == Sigma2 ==> Read(db, leg.raw.broker).balance >= leg.raw.body.value
    ensures var raw, v, db' := leg.raw, leg.raw.body.value, LegResult(db, n, shard, leg).value;
            && FitsUInt256(v) && Read(db', a).nonce == Read(db, a).nonce
            && var (payer, payee) := if leg.sigma == Sigma1 then (raw.body.sender, raw.broker) else (raw.broker, raw.body.recipient);
               var home := DefaultAccountLoc(if leg.sigma == Sigma1 then raw.body.sender else raw.body.recipient, n);
               Read(db', a).balance == Read(db, a).balance +
                 if shard != home then 0 else (if a == payee then v else 0) - (if a == payer then v else 0)
  {
  }

  /** A leg fails exactly when its value is no 256-bit number, or its sender cannot pay the first leg. */
  lemma LegFailsExactlyWhen(db: StateDB, n: nat, shard: Shard, leg: Leg)
    requires n > 0
    ensures var tx := leg.raw.body;
            LegResult(db, n, shard, leg).None? <==>
              !FitsUInt256(tx.value) ||
              (leg.sigma == Sigma1 && DefaultAccountLoc(tx.sender, n) == shard && Read(db, tx.sender).balance < tx.value)
  {
  }

  // ------------------------------------------------------------------------- the system

  datatype Cfg = Cfg(n: nat, brokers: set<Acct>)

  /** flying: emitted and not yet executed; executed: not yet reported. The last three fields are history. */
  datatype Sys = Sys(
    books: Books,
    dbs: seq<StateDB>,
    flying: set<Leg>,
    executed: set<Leg>,
    accepted: seq<Raw>,
    emitted: multiset<Leg>,
    confirmed: set<Leg>)

  datatype Action =
    | Accept(payment: TxBody, order: seq<Acct>)
    | Emit
    | ExecuteLeg(leg: Leg)
    | Report(leg: Leg)
    | RunTx(k: Shard, tx: Tx)
    | PruneShard(k: Shard)

  function ShardOf(leg: Leg, n: nat): Shard
    requires n > 0
  {
    if leg.sigma == Sigma1 then SourceShard(leg.raw, n) else TargetShard(leg.raw, n)
  }

  ghost predicate Enabled(cfg: Cfg, sys: Sys, act: Action) {
    && cfg.n > 0 && |sys.dbs| == cfg.n && BooksShape(sys.books, cfg.n) && sys.books.mgr.nonces.Keys == cfg.brokers
    && match act
       case Accept(tx, order) => tx.value >= 0 && !IsInner(cfg.brokers, cfg.n, tx) && forall b :: b in order ==> b in cfg.brokers
       case Emit => true
       case ExecuteLeg(leg) => leg in sys.flying
       case Report(leg) => leg in sys.executed
       case RunTx(k, tx) => k < cfg.n
       case PruneShard(k) => k < cfg.n
  }

  ghost function LegSet(legs: seq<Leg>): set<Leg> { set l | l in legs }

  ghost function Next(cfg: Cfg, sys: Sys, act: Action): Sys
    requires Enabled(cfg, sys, act)
  {
    match act
    case Accept(tx, order) =>
      var (books, raw) := Reserved(sys.books, cfg.n, tx, order);
      sys.(books := books, accepted := if raw.Some? then sys.accepted + [raw.value] else sys.accepted)
    case Emit =>
      var legs := LegsFor(sys.books.mgr.info, sys.books.mgr.ready1, WaitConfirm1) + LegsFor(sys.books.mgr.info, sys.books.mgr.ready2, WaitConfirm2);
      sys.(books := sys.books.(mgr := Broker.Emitted(sys.books.mgr)), flying := sys.flying + LegSet(legs), emitted := sys.emitted + multiset(legs))
    case ExecuteLeg(leg) =>
      var k := ShardOf(leg, cfg.n);
      (match LegResult(sys.dbs[k], cfg.n, k, leg)
       case None => sys.(flying := sys.flying - {leg})
       case Some(db) => sys.(dbs := sys.dbs[k := db], flying := sys.flying - {leg}, executed := sys.executed + {leg}))
    case Report(leg) =>
      sys.(books := Settled(sys.books, ShardOf(leg, cfg.n), leg), executed := sys.executed - {leg},
           confirmed := if Confirmed(sys.books.mgr, leg).Some? then sys.confirmed + {leg} else sys.confirmed)
    case RunTx(k, tx) =>
      (match TxResult(sys.dbs[k], DefaultLocations(tx, cfg.n), k, tx)
       case None => sys
       case Some(db) => sys.(dbs := sys.dbs[k := db]))
    case PruneShard(k) => sys.(dbs := sys.dbs[k := Prune(sys.dbs[k])])
  }

  function DefaultLocations(tx: Tx, n: nat): map<Acct, Shard>
    requires n > 0
  {
    map[tx.Sender() := DefaultAccountLoc(tx.Sender(), n), tx.Recipient() := DefaultAccountLoc(tx.Recipient(), n)]
  }

  function Init(cfg: Cfg): Sys {
    Sys(Books(Mgr(map b | b in cfg.brokers :: 0, map[], [], []),
              map b | b in cfg.brokers :: seq(cfg.n, _ => BROKER_INIT_BALANCE), map b | b in cfg.brokers :: seq(cfg.n, _ => 0)),
        seq(cfg.n, _ => map[]), {}, {}, [], multiset{}, {})
  }

  ghost function Run(cfg: Cfg, acts: seq<Action>): Option<Sys> {
    if acts == [] then Some(Init(cfg)) else
    match Run(cfg, acts[..|acts| - 1])
    case None => None
    case Some(sys) => if Enabled(cfg, sys, acts[|acts| - 1]) then Some(Next(cfg, sys, acts[|acts| - 1])) else None
  }

  /** No transaction other than the protocol's own legs spends a broker's money. */
  predicate NoBrokerSends(cfg: Cfg, act: Action) {
    act.RunTx? ==> act.tx.Sender() !in cfg.brokers
  }
}
