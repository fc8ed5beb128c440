/** The static-broker committee: mirrored balances, reserved deductions, and the routing of transactions. */
module StaticBroker {
  import opened Prelude
  import opened Accounts
  import opened Transactions
  import opened Broker

  const BROKER_INIT_BALANCE: nat := 1_000_000_000_000_000_000_000_000_000_000_000_000

  type Ledger = map<Acct, seq<int>>

  /** What the committee keeps: the manager, the mirrored balances and the pending deductions. */
  datatype Books = Books(mgr: Mgr, balance: Ledger, pending: Ledger)

  ghost predicate BooksShape(bk: Books, n: nat) {
    && n > 0 && bk.balance.Keys == bk.pending.Keys == bk.mgr.nonces.Keys
    && (forall b :: b in bk.balance ==> |bk.balance[b]| == |bk.pending[b]| == n)
  }

  function Added(l: Ledger, b: Acct, k: Shard, v: int): Ledger
    requires b in l && k < |l[b]|
  {
    l[b := l[b][k := l[b][k] + v]]
  }

  function SourceShard(raw: Raw, n: nat): Shard
    requires n > 0
  {
    DefaultAccountLoc(raw.body.sender, n)
  }

  function TargetShard(raw: Raw, n: nat): Shard
    requires n > 0
  {
    DefaultAccountLoc(raw.body.recipient, n)
  }

  // -------------------------------------------------------------------- reservations

  /**
   * Brokers are tried in the given order. A broker with enough available balance has the amount reserved before the
   * raw transaction is created; if that fails the reservation stays and the next broker is tried.
   */
  ghost function Reserved(bk: Books, n: nat, tx: TxBody, order: seq<Acct>): (r: (Books, Option<Raw>))
    requires BooksShape(bk, n) && forall b :: b in order ==> b in bk.balance
    ensures BooksShape(r.0, n)
    decreases order
  {
    if order == [] then (bk, None) else
    var b, k := order[0], DefaultAccountLoc(tx.recipient, n);
    if bk.balance[b][k] - bk.pending[b][k] < tx.value then Reserved(bk, n, tx, order[1..]) else
    var held := bk.(pending := Added(bk.pending, b, k, tx.value));
    match CreatedRaw(held.mgr, tx, b)
    case None => Reserved(held, n, tx, order[1..])
    case Some((mgr, raw)) => (held.(mgr := mgr), Some(raw))
  }

  // -------------------------------------------------------------------- confirmations

  /** One leg reported by shard k: earned when it is listed as a first leg, spent when it is listed as a second one. */
  function SettledAs(bk: Books, k: Shard, leg: Leg, earned: bool): Books
    requires leg.raw.broker in bk.mgr.nonces ==>
               leg.raw.broker in bk.balance && leg.raw.broker in bk.pending && k < |bk.balance[leg.raw.broker]| && k < |bk.pending[leg.raw.broker]|
  {
    match Confirmed(bk.mgr, leg)
    case None => bk
    case Some(mgr) =>
      var b, v := leg.raw.broker, leg.raw.body.value;
      if earned then bk.(mgr := mgr, balance := Added(bk.balance, b, k, v)) else
      var left := bk.pending[b][k] - v;
      bk.(mgr := mgr, balance := Added(bk.balance, b, k, -v),
          pending := bk.pending[b := bk.pending[b][k := if left < 0 then 0 else left]])
  }

  /** A leg that is listed as what it is. */
  function Settled(bk: Books, k: Shard, leg: Leg): Books
    requires leg.raw.broker in bk.mgr.nonces ==>
               leg.raw.broker in bk.balance && leg.raw.broker in bk.pending && k < |bk.balance[leg.raw.broker]| && k < |bk.pending[leg.raw.broker]|
  {
    SettledAs(bk, k, leg, leg.sigma == Sigma1)
  }

  ghost function SettledList(bk: Books, n: nat, k: Shard, legs: seq<Leg>, earned: bool): (r: Books)
    requires BooksShape(bk, n) && k < n
    ensures BooksShape(r, n)
  {
    if legs == [] then bk else SettledAs(SettledList(bk, n, k, legs[..|legs| - 1], earned), k, legs[|legs| - 1], earned)
  }

  ghost function SettledAll(bk: Books, n: nat, k: Shard, legs: seq<Leg>): (r: Books)
    requires BooksShape(bk, n) && k < n
    ensures BooksShape(r, n)
  {
    if legs == [] then bk else Settled(SettledAll(bk, n, k, legs[..|legs| - 1]), k, legs[|legs| - 1])
  }

  lemma {:induction false} SettledAppend(bk: Books, n: nat, k: Shard, a: seq<Leg>, b: seq<Leg>)
    requires BooksShape(bk, n) && k < n
    ensures SettledAll(bk, n, k, a + b) == SettledAll(SettledAll(bk, n, k, a), n, k, b)
  {
    if b == [] {
      assert a + b == a;
    } else {
      assert (a + b)[..|a + b| - 1] == a + b[..|b| - 1];
      SettledAppend(bk, n, k, a, b[..|b| - 1]);
    }
  }

  lemma {:induction false} ListedAsIs(bk: Books, n: nat, k: Shard, legs: seq<Leg>, earned: bool)
    requires BooksShape(bk, n) && k < n && forall l :: l in legs ==> (l.sigma == Sigma1) == earned
    ensures SettledList(bk, n, k, legs, earned) == SettledAll(bk, n, k, legs)
  {
    if legs != [] {
      assert legs[|legs| - 1] in legs && forall l :: l in legs[..|legs| - 1] ==> l in legs;
      ListedAsIs(bk, n, k, legs[..|legs| - 1], earned);
    }
  }

  /** A report that lists first legs as first and second legs as second settles each as what it is, one after the other. */
  lemma ReportSettles(bk: Books, n: nat, k: Shard, first: seq<Leg>, second: seq<Leg>)
    requires BooksShape(bk, n) && k < n
    requires (forall l :: l in first ==> l.sigma == Sigma1) && (forall l :: l in second ==> l.sigma == Sigma2)
    ensures SettledList(SettledList(bk, n, k, first, true), n, k, second, false) == SettledAll(bk, n, k, first + second)
  {
    ListedAsIs(bk, n, k, first, true);
    ListedAsIs(SettledAll(bk, n, k, first), n, k, second, false);
    SettledAppend(bk, n, k, first, second);
  }

  // ---------------------------------------------------------------------- classifying

  /** A transaction stays inside one shard, or a broker is a party to it. */
  predicate IsInner(brokers: set<Acct>, n: nat, tx: TxBody)
    requires n > 0
  {
    DefaultAccountLoc(tx.sender, n) == DefaultAccountLoc(tx.recipient, n) || tx.sender in brokers || tx.recipient in brokers
  }

  class StaticBrokerCommittee {
    const bManager: Manager
    const shardNum: nat
    var brokerBalances: Ledger
    var pendingDeductions: Ledger

    constructor (brokers: set<Acct>, shardNum: nat)
      requires shardNum > 0
      ensures Valid() && fresh(bManager) && this.shardNum == shardNum
      ensures brokerBalances == map b | b in brokers :: seq(shardNum, _ => BROKER_INIT_BALANCE)
      ensures pendingDeductions == map b | b in brokers :: seq(shardNum, _ => 0)
      ensures bManager.View() == Mgr(map b | b in brokers :: 0, map[], [], [])
    {
      bManager := new Manager(brokers);
      this.shardNum := shardNum;
      brokerBalances := map b | b in brokers :: seq(shardNum, _ => BROKER_INIT_BALANCE);
      pendingDeductions := map b | b in brokers :: seq(shardNum, _ => 0);
    }

    ghost function View(): Books
      reads this, bManager
    {
      Books(bManager.View(), brokerBalances, pendingDeductions)
    }

    ghost predicate Valid()
      reads this, bManager
    {
      BooksShape(View(), shardNum)
    }

    /** One broker is tried: the amount is reserved first, and stays reserved even if no raw transaction comes of it. */
    method TryBroker(tx: TxBody, bAddr: Acct, ghost rest: seq<Acct>) returns (found: Option<Raw>)
      requires Valid() && bAddr in brokerBalances && forall b :: b in rest ==> b in brokerBalances
      modifies this`pendingDeductions, bManager
      ensures Valid() && brokerBalances == old(brokerBalances)
      ensures Reserved(old(View()), shardNum, tx, [bAddr] + rest) ==
              if found.Some? then (View(), found) else Reserved(View(), shardNum, tx, rest)
    {
      var recipientShard := DefaultAccountLoc(tx.recipient, shardNum);
      var balance, pending := brokerBalances[bAddr][recipientShard], pendingDeductions[bAddr][recipientShard];
      assert ([bAddr] + rest)[1..] == rest;
      found := None;
      if balance - pending >= tx.value {
        pendingDeductions := pendingDeductions[bAddr := pendingDeductions[bAddr][recipientShard := pending + tx.value]];
        found := bManager.CreateRawTx(tx, bAddr);
      }
    }

    /** The reservation loop for one cross-shard transaction. */
    method ReserveBroker(tx: TxBody, order: seq<Acct>) returns (found: Option<Raw>)
      requires Valid() && forall b :: b in order ==> b in brokerBalances
      modifies this`pendingDeductions, bManager
      ensures Valid() && (View(), found) == Reserved(old(View()), shardNum, tx, order)
    {
      ghost var start := View();
      for i := 0 to |order|
        invariant Valid() && brokerBalances == old(brokerBalances)
        invariant Reserved(start, shardNum, tx, order) == Reserved(View(), shardNum, tx, order[i..])
      {
        assert order[i..] == [order[i]] + order[i + 1..];
        hide Reserved;
        found := TryBroker(tx, order[i], order[i + 1..]);
        if found.Some? { return; }
      }
      return None;
    }

    /** A block report: what it lists as first legs earns the broker money in this shard, what it lists as second spends it. */
    method HandleMsg(shardID: Shard, broker1Txs: seq<Leg>, broker2Txs: seq<Leg>)
      requires Valid() && shardID < shardNum
      modifies this, bManager
      ensures Valid() && View() == SettledList(SettledList(old(View()), shardNum, shardID, broker1Txs, true), shardNum, shardID, broker2Txs, false)
    {
      ghost var start := View();
      for i := 0 to |broker1Txs|
        invariant Valid() && View() == SettledList(start, shardNum, shardID, broker1Txs[..i], true)
      {
        assert broker1Txs[..i + 1][..i] == broker1Txs[..i];
        SettleFirst(shardID, broker1Txs[i]);
      }
      assert broker1Txs[..|broker1Txs|] == broker1Txs;
      ghost var mid := View();
      for i := 0 to |broker2Txs|
        invariant Valid() && View() == SettledList(mid, shardNum, shardID, broker2Txs[..i], false)
      {
        assert broker2Txs[..i + 1][..i] == broker2Txs[..i];
        SettleSecond(shardID, broker2Txs[i]);
      }
      assert broker2Txs[..|broker2Txs|] == broker2Txs;
    }

    method SettleFirst(shardID: Shard, leg: Leg)
      requires Valid() && shardID < shardNum
      modifies this`brokerBalances, bManager
      ensures Valid() && View() == SettledAs(old(View()), shardID, leg, true)
    {
      var ok := bManager.ConfirmBrokerTx(leg);
      if ok {
        var b := leg.raw.broker;
        brokerBalances := brokerBalances[b := brokerBalances[b][shardID := brokerBalances[b][shardID] + leg.raw.body.value]];
      }
    }

    method SettleSecond(shardID: Shard, leg: Leg)
      requires Valid() && shardID < shardNum
      modifies this, bManager
      ensures Valid() && View() == SettledAs(old(View()), shardID, leg, false)
    {
      var ok := bManager.ConfirmBrokerTx(leg);
      if ok {
        var b := leg.raw.broker;
        brokerBalances := brokerBalances[b := brokerBalances[b][shardID := brokerBalances[b][shardID] - leg.raw.body.value]];
        var pending := pendingDeductions[b][shardID] - leg.raw.body.value;
        if pending < 0 { pending := 0; }
        pendingDeductions := pendingDeductions[b := pendingDeductions[b][shardID := pending]];
      }
    }

    method ClassifyTxs(txs: seq<TxBody>) returns (inner: seq<TxBody>, cross: seq<TxBody>)
      requires Valid()
      ensures multiset(inner) + multiset(cross) == multiset(txs)
      ensures forall tx :: tx in inner ==> IsInner(bManager.broker2Nonce.Keys, shardNum, tx)
      ensures forall tx :: tx in cross ==> !IsInner(bManager.broker2Nonce.Keys, shardNum, tx)
    {
      inner, cross := [], [];
      for i := 0 to |txs|
        invariant multiset(inner) + multiset(cross) == multiset(txs[..i])
        invariant forall tx :: tx in inner ==> IsInner(bManager.broker2Nonce.Keys, shardNum, tx)
        invariant forall tx :: tx in cross ==> !IsInner(bManager.broker2Nonce.Keys, shardNum, tx)
      {
        assert txs[..i + 1] == txs[..i] + [txs[i]];
        var tx := txs[i];
        var senderShard, receiverShard := DefaultAccountLoc(tx.sender, shardNum), DefaultAccountLoc(tx.recipient, shardNum);
        if senderShard == receiverShard || bManager.IsBroker(tx.sender) || bManager.IsBroker(tx.recipient) {
          inner := inner + [tx];
        } else {
          cross := cross + [tx];
        }
      }
      assert txs[..|txs|] == txs;
    }
  }
}
