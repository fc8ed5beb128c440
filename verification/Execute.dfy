/** Transaction execution on the state database of one shard. */
module Execute {
  import opened Prelude
  import opened Accounts
  import opened Transactions

  // ------------------------------------------------------------- specification

  function Touch(db: StateDB, a: Acct): StateDB {
    if a in db then db else db[a := NewState()]
  }

  function Credit(db: StateDB, a: Acct, v: nat): StateDB
    requires a in db
  {
    db[a := db[a].(balance := db[a].balance + v)]
  }

  function Debit(db: StateDB, a: Acct, v: nat): StateDB
    requires a in db && db[a].balance >= v
  {
    db[a := db[a].(balance := db[a].balance - v)]
  }

  function NormalTxResult(db: StateDB, tx: Tx): Option<StateDB> {
    if !FitsUInt256(tx.Value()) then None else
    var d := Touch(Touch(db, tx.Sender()), tx.Recipient());
    if d[tx.Sender()].balance < tx.Value() then None else
    Some(Credit(Debit(d, tx.Sender(), tx.Value()), tx.Recipient(), tx.Value()))
  }

  function RelayTxResult(db: StateDB, addrLoc: map<Acct, Shard>, shard: Shard, tx: Tx): Option<StateDB>
    requires tx.Sender() in addrLoc && tx.Recipient() in addrLoc
  {
    if !FitsUInt256(tx.Value()) then None else
    match tx.stage
    case Relay1 =>
      if addrLoc[tx.Sender()] != shard then Some(db) else
      var d := Touch(db, tx.Sender());
      if d[tx.Sender()].balance < tx.Value() then None else Some(Debit(d, tx.Sender(), tx.Value()))
    case Relay2 =>
      if addrLoc[tx.Recipient()] != shard then Some(db) else
      Some(Credit(Touch(db, tx.Recipient()), tx.Recipient(), tx.Value()))
    case Undetermined => None
  }

  function TxResult(db: StateDB, addrLoc: map<Acct, Shard>, shard: Shard, tx: Tx): Option<StateDB>
    requires tx.Sender() in addrLoc && tx.Recipient() in addrLoc
  {
    match tx.Type()
    case NormalTx => NormalTxResult(db, tx)
    case RelayTx => RelayTxResult(db, addrLoc, shard, tx)
  }

  ghost predicate Covers(addrLoc: map<Acct, Shard>, txs: seq<Tx>) {
    forall i :: 0 <= i < |txs| ==> txs[i].Sender() in addrLoc && txs[i].Recipient() in addrLoc
  }

  /** The transactions of a block in order; one failure fails the block. */
  ghost function TxsResult(db: StateDB, addrLoc: map<Acct, Shard>, shard: Shard, txs: seq<Tx>): Option<StateDB>
    requires Covers(addrLoc, txs)
  {
    if txs == [] then Some(db) else
    match TxsResult(db, addrLoc, shard, txs[..|txs| - 1])
    case None => None
    case Some(d) => TxResult(d, addrLoc, shard, txs[|txs| - 1])
  }

  /** A failing transaction fails every longer block that starts with it. */
  lemma {:induction false} FailureSticks(db: StateDB, addrLoc: map<Acct, Shard>, shard: Shard, txs: seq<Tx>, n: nat)
    requires Covers(addrLoc, txs) && n <= |txs|
    requires TxsResult(db, addrLoc, shard, txs[..n]).None?
    ensures TxsResult(db, addrLoc, shard, txs).None?
  {
    if n == |txs| {
      assert txs[..n] == txs;
    } else {
      var most := txs[..|txs| - 1];
      assert most[..n] == txs[..n];
      FailureSticks(db, addrLoc, shard, most, n);
    }
  }

  /** Accounts that a committed block leaves empty; the state database forgets them. */
  function Drained(db: StateDB): set<Acct> {
    set a | a in db && db[a].IsEmpty()
  }

  function Prune(db: StateDB): StateDB {
    map a | a in db && !db[a].IsEmpty() :: db[a]
  }

  ghost predicate NoEmptyAccount(db: StateDB) {
    forall a :: a in db ==> !db[a].IsEmpty()
  }

  // ---------------------------------------------------------------- what it means

  /** The transaction is in a shard that can execute it: never the silent skip. */
  predicate RunsHere(tx: Tx, addrLoc: map<Acct, Shard>, shard: Shard)
    requires tx.Sender() in addrLoc && tx.Recipient() in addrLoc
  {
    Coherent(tx) &&
    match tx.stage
    case Undetermined => addrLoc[tx.Sender()] == shard && addrLoc[tx.Recipient()] == shard
    case Relay1 => addrLoc[tx.Sender()] == shard
    case Relay2 => addrLoc[tx.Recipient()] == shard
  }

  ghost predicate AllRunHere(txs: seq<Tx>, addrLoc: map<Acct, Shard>, shard: Shard) {
    Covers(addrLoc, txs) && forall i :: 0 <= i < |txs| ==> RunsHere(txs[i], addrLoc, shard)
  }

  /** One execution moves exactly the effect of the transaction and no nonce. */
  lemma TxMovesItsEffect(db: StateDB, addrLoc: map<Acct, Shard>, shard: Shard, tx: Tx, a: Acct)
    requires tx.Sender() in addrLoc && tx.Recipient() in addrLoc
    requires RunsHere(tx, addrLoc, shard)
    requires TxResult(db, addrLoc, shard, tx).Some?
    ensures var db' := TxResult(db, addrLoc, shard, tx).value;
            Read(db', a).balance == Read(db, a).balance + tx.Effect(a) && Read(db', a).nonce == Read(db, a).nonce
    ensures FitsUInt256(tx.Value())
  {
  }

  function EffectOn(a: Acct): Tx -> int { (tx: Tx) => tx.Effect(a) }

  /** A block moves the sum of the effects of its transactions, on every account. */
  lemma {:induction false} BlockMovesItsEffects(db: StateDB, addrLoc: map<Acct, Shard>, shard: Shard, txs: seq<Tx>, a: Acct)
    requires AllRunHere(txs, addrLoc, shard)
    requires TxsResult(db, addrLoc, shard, txs).Some?
    ensures var db' := TxsResult(db, addrLoc, shard, txs).value;
            Read(db', a).balance == Read(db, a).balance + SeqSum(txs, EffectOn(a)) &&
            Read(db', a).nonce == Read(db, a).nonce
    ensures forall i :: 0 <= i < |txs| ==> FitsUInt256(txs[i].Value())
  {
    if txs != [] {
      var most, last := txs[..|txs| - 1], txs[|txs| - 1];
      BlockMovesItsEffects(db, addrLoc, shard, most, a);
      TxMovesItsEffect(TxsResult(db, addrLoc, shard, most).value, addrLoc, shard, last, a);
    }
  }

  /** An account that no transaction of the block names keeps its stored state. */
  lemma {:induction false} BlockLeavesOthers(db: StateDB, addrLoc: map<Acct, Shard>, shard: Shard, txs: seq<Tx>, a: Acct)
    requires AllRunHere(txs, addrLoc, shard)
    requires TxsResult(db, addrLoc, shard, txs).Some?
    requires a !in addrLoc || addrLoc[a] != shard
    ensures var db' := TxsResult(db, addrLoc, shard, txs).value;
            (a in db' <==> a in db) && (a in db ==> db'[a] == db[a])
  {
    if txs != [] {
      BlockLeavesOthers(db, addrLoc, shard, txs[..|txs| - 1], a);
    }
  }

  // ------------------------------------------------------------------ the executor

  /** The executor of one block, updating the state database in place. */
  class Executor {
    var db: StateDB

    constructor (db: StateDB)
      ensures this.db == db
    {
      this.db := db;
    }

    method SetInitBalanceIfNotExist(addresses: seq<Acct>)
      modifies this
      ensures forall a :: a in db <==> a in old(db) || a in addresses
      ensures forall a :: Read(db, a) == Read(old(db), a)
    {
      for i := 0 to |addresses|
        invariant forall a :: a in db <==> a in old(db) || a in addresses[..i]
        invariant forall a :: Read(db, a) == Read(old(db), a)
      {
        if addresses[i] !in db {
          db := db[addresses[i] := NewState()];
        }
      }
    }

    method NormalTxExecute(tx: Tx) returns (ok: bool)
      modifies this
      ensures ok <==> NormalTxResult(old(db), tx).Some?
      ensures ok ==> db == NormalTxResult(old(db), tx).value
      ensures !ok ==> forall a :: Read(db, a) == Read(old(db), a)
    {
      if !FitsUInt256(tx.Value()) { return false; }
      var sender, recipient := tx.Sender(), tx.Recipient();
      SetInitBalanceIfNotExist([sender, recipient]);
      assert db == Touch(Touch(old(db), sender), recipient) by {
        SameReads(db, Touch(Touch(old(db), sender), recipient));
      }
      if db[sender].balance < tx.Value() { return false; }
      db := Debit(db, sender, tx.Value());
      db := Credit(db, recipient, tx.Value());
      return true;
    }

    method RelayTxExecute(addrLoc: map<Acct, Shard>, shard: Shard, tx: Tx) returns (ok: bool)
      requires tx.Sender() in addrLoc && tx.Recipient() in addrLoc
      modifies this
      ensures ok <==> RelayTxResult(old(db), addrLoc, shard, tx).Some?
      ensures ok ==> db == RelayTxResult(old(db), addrLoc, shard, tx).value
      ensures !ok ==> forall a :: Read(db, a) == Read(old(db), a)
    {
      if !FitsUInt256(tx.Value()) { return false; }
      match tx.stage {
        case Relay1 =>
          if addrLoc[tx.Sender()] != shard { return true; }
          SetInitBalanceIfNotExist([tx.Sender()]);
          SameReads(db, Touch(old(db), tx.Sender()));
          if db[tx.Sender()].balance < tx.Value() { return false; }
          db := Debit(db, tx.Sender(), tx.Value());
        case Relay2 =>
          if addrLoc[tx.Recipient()] != shard { return true; }
          SetInitBalanceIfNotExist([tx.Recipient()]);
          SameReads(db, Touch(old(db), tx.Recipient()));
          db := Credit(db, tx.Recipient(), tx.Value());
        case Undetermined =>
          return false;
      }
      return true;
    }

    method TxExecute(addrLoc: map<Acct, Shard>, shard: Shard, tx: Tx) returns (ok: bool)
      requires tx.Sender() in addrLoc && tx.Recipient() in addrLoc
      modifies this
      ensures ok <==> TxResult(old(db), addrLoc, shard, tx).Some?
      ensures ok ==> db == TxResult(old(db), addrLoc, shard, tx).value
      ensures !ok ==> forall a :: Read(db, a) == Read(old(db), a)
    {
      match tx.Type() {
        case NormalTx => ok := NormalTxExecute(tx);
        case RelayTx => ok := RelayTxExecute(addrLoc, shard, tx);
      }
    }

    method ExecuteAll(addrLoc: map<Acct, Shard>, shard: Shard, txs: seq<Tx>) returns (ok: bool)
      requires Covers(addrLoc, txs)
      modifies this
      ensures ok <==> TxsResult(old(db), addrLoc, shard, txs).Some?
      ensures ok ==> db == TxsResult(old(db), addrLoc, shard, txs).value
    {
      for i := 0 to |txs|
        invariant TxsResult(old(db), addrLoc, shard, txs[..i]) == Some(db)
      {
        assert txs[..i + 1][..i] == txs[..i];
        var done := TxExecute(addrLoc, shard, txs[i]);
        if !done {
          FailureSticks(old(db), addrLoc, shard, txs, i + 1);
          return false;
        }
      }
      assert txs[..|txs|] == txs;
      return true;
    }

    /** Committing drops the accounts that ended up empty. */
    method Commit() returns (root: StateDB)
      modifies this
      ensures root == db == Prune(old(db))
    {
      db := Prune(db);
      root := db;
    }
  }

  lemma SameReads(d: StateDB, e: StateDB)
    requires d.Keys == e.Keys
    requires forall a :: Read(d, a) == Read(e, a)
    ensures d == e
  {
    forall a | a in d ensures d[a] == e[a] {
      assert d[a] == Read(d, a) && e[a] == Read(e, a);
    }
  }
}
