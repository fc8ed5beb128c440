/** The broker manager: raw transactions, their two legs, and confirmations. */
module Broker {
  import opened Prelude
  import opened Accounts
  import opened Transactions

  /** An accepted payment with the broker that carries it. */
  datatype Raw = Raw(body: TxBody, broker: Acct, nonce: nat) {
    function Hash(): TxHash { HashOf(body) }
  }

  datatype Sigma = Sigma1 | Sigma2

  datatype Leg = Leg(raw: Raw, sigma: Sigma)

  datatype ConfirmStage = WaitConfirm1 | WaitConfirm2

  datatype Info = Info(raw: Raw, stage: ConfirmStage)

  /** The value of a Manager. */
  datatype Mgr = Mgr(nonces: map<Acct, nat>, info: map<TxHash, Info>, ready1: seq<TxHash>, ready2: seq<TxHash>)

  function CreatedRaw(m: Mgr, tx: TxBody, broker: Acct): Option<(Mgr, Raw)> {
    if broker !in m.nonces || HashOf(tx) in m.info then None else
    var nonce := m.nonces[broker] + 1;
    var raw := Raw(tx, broker, nonce);
    Some((m.(nonces := m.nonces[broker := nonce], info := m.info[HashOf(tx) := Info(raw, WaitConfirm1)], ready1 := m.ready1 + [HashOf(tx)]), raw))
  }

  /** The legs for a ready list; an entry that is unknown or in another stage yields none. */
  function LegsFor(info: map<TxHash, Info>, ready: seq<TxHash>, stage: ConfirmStage): seq<Leg> {
    if ready == [] then [] else
    var h := ready[|ready| - 1];
    LegsFor(info, ready[..|ready| - 1], stage) +
    if h in info && info[h].stage == stage then [Leg(info[h].raw, if stage == WaitConfirm1 then Sigma1 else Sigma2)] else []
  }

  function Emitted(m: Mgr): Mgr { m.(ready1 := [], ready2 := []) }

  function Confirmed(m: Mgr, leg: Leg): Option<Mgr> {
    var h := leg.raw.Hash();
    if leg.raw.broker !in m.nonces || h !in m.info then None else
    match m.info[h].stage
    case WaitConfirm1 =>
      if leg.sigma != Sigma1 then None
      else Some(m.(info := m.info[h := Info(m.info[h].raw, WaitConfirm2)], ready2 := m.ready2 + [h]))
    case WaitConfirm2 =>
      if leg.sigma != Sigma2 then None
      else Some(m.(info := m.info - {h}))
  }

  predicate Finished(m: Mgr) { |m.info| == 0 && |m.ready1| == 0 && |m.ready2| == 0 }

  class Manager {
    var broker2Nonce: map<Acct, nat>
    var unconfirmedTxInfo: map<TxHash, Info>
    var readyBroker1TxHashes: seq<TxHash>
    var readyBroker2TxHashes: seq<TxHash>

    constructor (brokers: set<Acct>)
      ensures View() == Mgr(map b | b in brokers :: 0, map[], [], [])
    {
      broker2Nonce := map b | b in brokers :: 0;
      unconfirmedTxInfo, readyBroker1TxHashes, readyBroker2TxHashes := map[], [], [];
    }

    ghost function View(): Mgr
      reads this
    {
      Mgr(broker2Nonce, unconfirmedTxInfo, readyBroker1TxHashes, readyBroker2TxHashes)
    }

    predicate IsBroker(a: Acct)
      reads this
    {
      a in broker2Nonce
    }

    method CreateRawTx(tx: TxBody, broker: Acct) returns (r: Option<Raw>)
      modifies this
      ensures r.None? <==> CreatedRaw(old(View()), tx, broker).None?
      ensures r.None? ==> View() == old(View())
      ensures r.Some? ==> (View(), r.value) == CreatedRaw(old(View()), tx, broker).value
    {
      var th := HashOf(tx);
      if !IsBroker(broker) { return None; }
      if th in unconfirmedTxInfo { return None; }
      broker2Nonce := broker2Nonce[broker := broker2Nonce[broker] + 1];
      var rawTx := Raw(tx, broker, broker2Nonce[broker]);
      unconfirmedTxInfo := unconfirmedTxInfo[th := Info(rawTx, WaitConfirm1)];
      readyBroker1TxHashes := readyBroker1TxHashes + [th];
      return Some(rawTx);
    }

    method CreateLegs(ready: seq<TxHash>, stage: ConfirmStage) returns (legs: seq<Leg>)
      ensures legs == LegsFor(unconfirmedTxInfo, ready, stage)
    {
      legs := [];
      for i := 0 to |ready|
        invariant legs == LegsFor(unconfirmedTxInfo, ready[..i], stage)
      {
        assert ready[..i + 1][..i] == ready[..i];
        var h := ready[i];
        if h !in unconfirmedTxInfo { continue; }
        if unconfirmedTxInfo[h].stage != stage { continue; }
        legs := legs + [Leg(unconfirmedTxInfo[h].raw, if stage == WaitConfirm1 then Sigma1 else Sigma2)];
      }
      assert ready[..|ready|] == ready;
    }

    method CreateBrokerTxs() returns (b1Txs: seq<Leg>, b2Txs: seq<Leg>)
      modifies this
      ensures View() == Emitted(old(View()))
      ensures b1Txs == LegsFor(old(unconfirmedTxInfo), old(readyBroker1TxHashes), WaitConfirm1)
      ensures b2Txs == LegsFor(old(unconfirmedTxInfo), old(readyBroker2TxHashes), WaitConfirm2)
    {
      b1Txs := CreateLegs(readyBroker1TxHashes, WaitConfirm1);
      readyBroker1TxHashes := [];
      b2Txs := CreateLegs(readyBroker2TxHashes, WaitConfirm2);
      readyBroker2TxHashes := [];
    }

    method ConfirmBrokerTx(leg: Leg) returns (ok: bool)
      modifies this
      ensures ok <==> Confirmed(old(View()), leg).Some?
      ensures View() == if ok then Confirmed(old(View()), leg).value else old(View())
    {
      if !IsBroker(leg.raw.broker) { return false; }
      var h := leg.raw.Hash();
      if h !in unconfirmedTxInfo { return false; }
      match unconfirmedTxInfo[h].stage {
        case WaitConfirm1 =>
          if leg.sigma != Sigma1 { return false; }
          unconfirmedTxInfo := unconfirmedTxInfo[h := Info(unconfirmedTxInfo[h].raw, WaitConfirm2)];
          readyBroker2TxHashes := readyBroker2TxHashes + [h];
        case WaitConfirm2 =>
          if leg.sigma != Sigma2 { return false; }
          unconfirmedTxInfo := unconfirmedTxInfo - {h};
      }
      return true;
    }

    method IsFinished() returns (r: bool)
      ensures r <==> Finished(View())
    {
      return |unconfirmedTxInfo| == 0 && |readyBroker1TxHashes| == 0 && |readyBroker2TxHashes| == 0;
    }
  }
}
