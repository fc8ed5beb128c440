/** Sending, routing and splitting the transactions of the broker protocol. */
module BrokerRouting {
  import opened Prelude
  import opened Accounts
  import opened Transactions
  import opened Broker
  import opened StaticBroker
  import opened RelayOps

  datatype BrokerStage = RawStage | SigmaOne | SigmaTwo

  /** A transaction with the options of both cross-shard schemes. */
  datatype BrokerTx = BrokerTx(
    body: TxBody, relay: RelayStage, relayHash: TxHash, stage: BrokerStage, broker: Acct, brokerHash: TxHash, brokerNonce: nat)

  datatype BrokerTxType = NormalType | RelayType | BrokerType

  function TypeOf(tx: BrokerTx): BrokerTxType {
    if tx.brokerHash != NoHash then BrokerType else if tx.relayHash != NoHash then RelayType else NormalType
  }

  function PlainTx(tx: TxBody): BrokerTx { BrokerTx(tx, Undetermined, NoHash, RawStage, 0, NoHash, 0) }
  function FallbackTx(tx: TxBody): BrokerTx { PlainTx(tx).(relay := Relay1, relayHash := HashOf(tx)) }
  function LegTx(leg: Leg): BrokerTx {
    BrokerTx(leg.raw.body, Undetermined, NoHash, if leg.sigma == Sigma1 then SigmaOne else SigmaTwo, leg.raw.broker, leg.raw.Hash(), leg.raw.nonce)
  }

  // ---------------------------------------------------------------------------- routing

  function TxLoc(tx: BrokerTx, n: nat): Shard
    requires n > 0
  {
    var type_ := TypeOf(tx);
    if type_ == NormalType || (type_ == RelayType && tx.relay == Relay1) then DefaultAccountLoc(tx.body.sender, n)
    else if type_ == RelayType && tx.relay == Relay2 then DefaultAccountLoc(tx.body.recipient, n)
    else if tx.stage == SigmaOne then DefaultAccountLoc(tx.body.sender, n)
    else DefaultAccountLoc(tx.body.recipient, n)
  }

  /** The shard executes the transaction: the account whose location execution looks at lives there. */
  predicate ExecutedIn(tx: BrokerTx, k: Shard, n: nat)
    requires n > 0
  {
    match TypeOf(tx)
    case NormalType => DefaultAccountLoc(tx.body.sender, n) == k
    case RelayType =>
      (tx.relay == Relay1 && DefaultAccountLoc(tx.body.sender, n) == k) || (tx.relay == Relay2 && DefaultAccountLoc(tx.body.recipient, n) == k)
    case BrokerType =>
      (tx.stage == SigmaOne && DefaultAccountLoc(tx.body.sender, n) == k) || (tx.stage == SigmaTwo && DefaultAccountLoc(tx.body.recipient, n) == k)
  }

  function ToShard(k: Shard, n: nat): BrokerTx -> bool
    requires n > 0
  {
    (tx: BrokerTx) => TxLoc(tx, n) == k
  }

  method PackShardTxs(txs: seq<BrokerTx>, n: nat) returns (shardTxs: seq<seq<BrokerTx>>)
    requires n > 0
    ensures |shardTxs| == n && forall k :: 0 <= k < n ==> shardTxs[k] == Pick(txs, ToShard(k, n))
  {
    shardTxs := seq(n, _ => []);
    for i := 0 to |txs|
      invariant |shardTxs| == n && forall k :: 0 <= k < n ==> shardTxs[k] == Pick(txs[..i], ToShard(k, n))
    {
      assert txs[..i + 1] == txs[..i] + [txs[i]];
      forall k | 0 <= k < n
        ensures Pick(txs[..i + 1], ToShard(k, n)) == if TxLoc(txs[i], n) == k then shardTxs[k] + [txs[i]] else shardTxs[k]
      {
        PickSnoc(txs[..i], txs[i], ToShard(k, n));
      }
      var shardID := TxLoc(txs[i], n);
      shardTxs := shardTxs[shardID := shardTxs[shardID] + [txs[i]]];
    }
    assert txs[..|txs|] == txs;
  }

  // ----------------------------------------------------------------------------- sending

  /** Cross-shard payments one after the other; those without a broker fall back to relaying. */
  ghost function ReservedAll(bk: Books, n: nat, txs: seq<TxBody>, orders: seq<seq<Acct>>): (r: (Books, seq<TxBody>))
    requires BooksShape(bk, n) && |orders| >= |txs|
    requires forall i, b :: 0 <= i < |orders| && b in orders[i] ==> b in bk.balance
    ensures BooksShape(r.0, n) && r.0.balance == bk.balance
  {
    if txs == [] then (bk, []) else
    var (before, fallen) := ReservedAll(bk, n, txs[..|txs| - 1], orders);
    KeepsBalance(before, n, txs[|txs| - 1], orders[|txs| - 1]);
    var (after, raw) := Reserved(before, n, txs[|txs| - 1], orders[|txs| - 1]);
    (after, if raw.None? then fallen + [txs[|txs| - 1]] else fallen)
  }

  lemma {:induction false} KeepsBalance(bk: Books, n: nat, tx: TxBody, order: seq<Acct>)
    requires BooksShape(bk, n) && forall b :: b in order ==> b in bk.balance
    ensures Reserved(bk, n, tx, order).0.balance == bk.balance
    decreases order
  {
    if order != [] {
      var b, k := order[0], DefaultAccountLoc(tx.recipient, n);
      KeepsBalance(bk, n, tx, order[1..]);
      if bk.balance[b][k] - bk.pending[b][k] >= tx.value {
        KeepsBalance(bk.(pending := Added(bk.pending, b, k, tx.value)), n, tx, order[1..]);
      }
    }
  }

  /** The reservation loop over all cross-shard payments. */
  method ReserveAll(c: StaticBrokerCommittee, txs: seq<TxBody>, orders: seq<seq<Acct>>) returns (fallen: seq<TxBody>)
    requires c.Valid() && |orders| >= |txs|
    requires forall i, b :: 0 <= i < |orders| && b in orders[i] ==> b in c.brokerBalances
    modifies c, c.bManager
    ensures c.Valid() && (c.View(), fallen) == ReservedAll(old(c.View()), c.shardNum, txs, orders)
  {
    ghost var start := c.View();
    fallen := [];
    for i := 0 to |txs|
      invariant c.Valid() && c.brokerBalances == start.balance
      invariant (c.View(), fallen) == ReservedAll(start, c.shardNum, txs[..i], orders)
    {
      assert txs[..i + 1][..i] == txs[..i];
      KeepsBalance(c.View(), c.shardNum, txs[i], orders[i]);
      var found := c.ReserveBroker(txs[i], orders[i]);
      if found.None? { fallen := fallen + [txs[i]]; }
    }
    assert txs[..|txs|] == txs;
  }

  /**
   * One injection: inner transactions, relay fallbacks, and the legs that are due. orders are the shuffles of the
   * brokers, one for each cross-shard payment.
   */
  method ReadTxsAndSend(c: StaticBrokerCommittee, txs: seq<TxBody>, orders: seq<seq<Acct>>)
      returns (shardTxs: seq<seq<BrokerTx>>, ghost sent: seq<BrokerTx>, ghost inner: seq<TxBody>, ghost cross: seq<TxBody>)
    requires c.Valid() && |orders| >= |txs|
    requires forall i, b :: 0 <= i < |orders| && b in orders[i] ==> b in c.brokerBalances
    modifies c, c.bManager
    ensures c.Valid() && multiset(inner) + multiset(cross) == multiset(txs)
    ensures forall tx :: tx in cross ==> !IsInner(old(c.bManager.broker2Nonce).Keys, c.shardNum, tx)
    ensures forall tx :: tx in inner ==> IsInner(old(c.bManager.broker2Nonce).Keys, c.shardNum, tx)
    ensures |cross| <= |orders|
    ensures var (books, fallen) := ReservedAll(old(c.View()), c.shardNum, cross, orders);
            && c.View() == books.(mgr := Broker.Emitted(books.mgr))
            && sent == Mapped(inner, PlainTx) + Mapped(fallen, FallbackTx)
                       + Mapped(LegsFor(books.mgr.info, books.mgr.ready1, WaitConfirm1), LegTx)
                       + Mapped(LegsFor(books.mgr.info, books.mgr.ready2, WaitConfirm2), LegTx)
    ensures |shardTxs| == c.shardNum && forall k :: 0 <= k < c.shardNum ==> shardTxs[k] == Pick(sent, ToShard(k, c.shardNum))
    ensures forall tx :: tx in sent ==> IsSent(tx)
  {
    var innerTxs, crossTxs := c.ClassifyTxs(txs);
    inner, cross := innerTxs, crossTxs;
    CrossFits(txs, inner, cross);
    var fallen := ReserveAll(c, crossTxs, orders);
    var b1Txs, b2Txs := c.bManager.CreateBrokerTxs();
    var sendTxs := Mapped(innerTxs, PlainTx) + Mapped(fallen, FallbackTx) + Mapped(b1Txs, LegTx) + Mapped(b2Txs, LegTx);
    sent := sendTxs;
    forall tx | tx in sent ensures IsSent(tx) {
      AllSent(innerTxs, fallen, b1Txs, b2Txs, tx);
    }
    shardTxs := PackShardTxs(sendTxs, c.shardNum);
  }

  lemma CrossFits(txs: seq<TxBody>, inner: seq<TxBody>, cross: seq<TxBody>)
    requires multiset(inner) + multiset(cross) == multiset(txs)
    ensures |cross| <= |txs|
  {
    assert |multiset(txs)| == |multiset(inner)| + |multiset(cross)|;
  }

  /** What the committee sends: plain transactions, first relay legs, and broker legs. */
  predicate IsSent(tx: BrokerTx) {
    match TypeOf(tx)
    case NormalType => true
    case RelayType => tx.relay == Relay1
    case BrokerType => tx.stage != RawStage
  }

  lemma AllSent(inner: seq<TxBody>, fallen: seq<TxBody>, b1: seq<Leg>, b2: seq<Leg>, tx: BrokerTx)
    requires tx in Mapped(inner, PlainTx) + Mapped(fallen, FallbackTx) + Mapped(b1, LegTx) + Mapped(b2, LegTx)
    ensures IsSent(tx)
  {
    if tx in Mapped(inner, PlainTx) {
      var i :| 0 <= i < |inner| && tx == PlainTx(inner[i]);
    } else if tx in Mapped(fallen, FallbackTx) {
      var i :| 0 <= i < |fallen| && tx == FallbackTx(fallen[i]);
    } else if tx in Mapped(b1, LegTx) {
      var i :| 0 <= i < |b1| && tx == LegTx(b1[i]);
    } else {
      var i :| 0 <= i < |b2| && tx == LegTx(b2[i]);
    }
  }

  /** Everything that is sent goes to the one shard that executes it. */
  lemma SentIsExecuted(sent: seq<BrokerTx>, n: nat, k: Shard, tx: BrokerTx)
    requires n > 0 && k < n && tx in sent && IsSent(tx)
    ensures tx in Pick(sent, ToShard(k, n)) <==> ExecutedIn(tx, k, n)
    ensures TxLoc(tx, n) < n
  {
    PickMembers(sent, ToShard(k, n), tx);
  }

  // ---------------------------------------------------------------------------- splitting

  datatype Part = InnerPart | FirstPart | SecondPart | Relay1Part | Relay2Part

  function PartOf(tx: BrokerTx): Part {
    if TypeOf(tx) == RelayType then (if tx.relay == Relay1 then Relay1Part else Relay2Part) else
    match tx.stage
    case RawStage => InnerPart
    case SigmaOne => FirstPart
    case SigmaTwo => SecondPart
  }

  function InPart(p: Part): BrokerTx -> bool { (tx: BrokerTx) => PartOf(tx) == p }

  /** A committed block is reported in five lists, each transaction in exactly one of them, in order. */
  method SplitTxs(txs: seq<BrokerTx>)
      returns (innerTxs: seq<BrokerTx>, b1Txs: seq<BrokerTx>, b2Txs: seq<BrokerTx>, r1Txs: seq<BrokerTx>, r2Txs: seq<BrokerTx>)
    ensures innerTxs == Pick(txs, InPart(InnerPart)) && b1Txs == Pick(txs, InPart(FirstPart)) && b2Txs == Pick(txs, InPart(SecondPart))
    ensures r1Txs == Pick(txs, InPart(Relay1Part)) && r2Txs == Pick(txs, InPart(Relay2Part))
  {
    innerTxs, b1Txs, b2Txs, r1Txs, r2Txs := [], [], [], [], [];
    for i := 0 to |txs|
      invariant innerTxs == Pick(txs[..i], InPart(InnerPart)) && b1Txs == Pick(txs[..i], InPart(FirstPart)) && b2Txs == Pick(txs[..i], InPart(SecondPart))
      invariant r1Txs == Pick(txs[..i], InPart(Relay1Part)) && r2Txs == Pick(txs[..i], InPart(Relay2Part))
    {
      var tx := txs[i];
      assert txs[..i + 1] == txs[..i] + [tx];
      PickSnoc(txs[..i], tx, InPart(InnerPart));
      PickSnoc(txs[..i], tx, InPart(FirstPart));
      PickSnoc(txs[..i], tx, InPart(SecondPart));
      PickSnoc(txs[..i], tx, InPart(Relay1Part));
      PickSnoc(txs[..i], tx, InPart(Relay2Part));
      if TypeOf(tx) == RelayType {
        if tx.relay == Relay1 { r1Txs := r1Txs + [tx]; } else { r2Txs := r2Txs + [tx]; }
        continue;
      }
      match tx.stage {
        case RawStage => innerTxs := innerTxs + [tx];
        case SigmaOne => b1Txs := b1Txs + [tx];
        case SigmaTwo => b2Txs := b2Txs + [tx];
      }
    }
    assert txs[..|txs|] == txs;
  }

  /** The legs the committee sent come back in the lists the committee confirms them from. */
  lemma LegsComeBack(txs: seq<BrokerTx>, leg: Leg)
    requires LegTx(leg) in txs
    ensures LegTx(leg) in Pick(txs, InPart(FirstPart)) <==> leg.sigma == Sigma1
    ensures LegTx(leg) in Pick(txs, InPart(SecondPart)) <==> leg.sigma == Sigma2
    ensures LegTx(leg) !in Pick(txs, InPart(InnerPart)) && LegTx(leg) !in Pick(txs, InPart(Relay1Part)) && LegTx(leg) !in Pick(txs, InPart(Relay2Part))
  {
    PickMembers(txs, InPart(FirstPart), LegTx(leg));
    PickMembers(txs, InPart(SecondPart), LegTx(leg));
    PickMembers(txs, InPart(InnerPart), LegTx(leg));
    PickMembers(txs, InPart(Relay1Part), LegTx(leg));
    PickMembers(txs, InPart(Relay2Part), LegTx(leg));
  }
}
