/** An agent whose account a block drains: from then on its ledger and its chain differ. */
module LedgerRestart {
  import opened Prelude
  import opened Accounts
  import opened Transactions
  import opened Execute
  import opened AgentLedger
  import Chain

  /** Two accounts of shard 0, whatever the number of shards. */
  const AGENT: Acct := 0
  const OTHER: Acct := 0x1_0000_0000

  function Transfer(from: Acct, to: Acct, value: nat): Tx { Tx(TxBody(from, to, value, 0), Undetermined, NoHash) }

  /** The agent pays everything it has, and gets one back in the next block. */
  function Blocks(): seq<LBlock> {
    [LBlock(0, 2, [Transfer(AGENT, OTHER, NORMAL_INIT_BALANCE)]), LBlock(1, 3, [Transfer(OTHER, AGENT, 1)])]
  }

  lemma BothInShardZero(n: nat)
    requires n > 0
    ensures DefaultAccountLoc(AGENT, n) == 0 && DefaultAccountLoc(OTHER, n) == 0
  {
    assert AGENT % 0x1_0000_0000 == 0 == OTHER % 0x1_0000_0000;
  }

  lemma OneTxBlock(db: StateDB, n: nat, tx: Tx)
    requires n > 0 && {tx.Sender(), tx.Recipient()} == {AGENT, OTHER} && tx.stage == Undetermined && tx.original == NoHash
    ensures AllRunHere([tx], StaticLocations([tx], n), 0)
    ensures TxsResult(db, StaticLocations([tx], n), 0, [tx]) == NormalTxResult(db, tx)
  {
    BothInShardZero(n);
    hide DefaultAccountLoc, NormalTxResult;
    var locs := StaticLocations([tx], n);
    assert [tx][..0] == [];
    assert TxsResult(db, locs, 0, []) == Some(db);
    assert [tx][0].Sender() in locs && [tx][0].Recipient() in locs;
  }

  function Spent(): StateDB { map[AGENT := AcctState(0, 0), OTHER := AcctState(2 * NORMAL_INIT_BALANCE, 0)] }
  function Kept(): StateDB { map[OTHER := AcctState(2 * NORMAL_INIT_BALANCE, 0)] }

  lemma SpendsAll()
    ensures NormalTxResult(map[], Blocks()[0].txs[0]) == Some(Spent())
  {
    var r := NormalTxResult(map[], Blocks()[0].txs[0]);
    assert r.Some?;
    assert r.value.Keys == {AGENT, OTHER} && r.value[AGENT] == AcctState(0, 0) && r.value[OTHER] == AcctState(2 * NORMAL_INIT_BALANCE, 0);
    assert Spent().Keys == {AGENT, OTHER};
    assert forall x :: x in r.value <==> x == AGENT || x == OTHER;
    assert r.value == Spent();
  }

  lemma FirstBlock(n: nat)
    requires n > 0
    ensures StateInBlock(n, 0, [], Blocks()[0].txs) == Some(Spent()) && Prune(Spent()) == Kept()
    ensures ShardState(n, 0, Blocks()[..1]) == Some(Kept()) && Restarts(n, 0, Blocks()[..1], AGENT) == 1
  {
    OneTxBlock(map[], n, Blocks()[0].txs[0]);
    SpendsAll();
    assert ShardState(n, 0, []) == Some(map[]);
    assert Blocks()[..1][..0] == [];
    hide NormalTxResult, TxsResult;
    assert Prune(Spent()) == Kept();
    assert AGENT in Drained(Spent());
  }

  lemma SecondBlock(n: nat)
    requires n > 0
    ensures var db := StateInBlock(n, 0, Blocks()[..1], Blocks()[1].txs);
            db.Some? && ShardState(n, 0, Blocks()) == Some(Prune(db.value)) && AGENT !in Drained(db.value)
    ensures Restarts(n, 0, Blocks(), AGENT) == 1
  {
    FirstBlock(n);
    OneTxBlock(Kept(), n, Blocks()[1].txs[0]);
    var db := NormalTxResult(Kept(), Blocks()[1].txs[0]);
    assert db.Some? && db.value[AGENT].balance == NORMAL_INIT_BALANCE + 1;
    hide NormalTxResult, TxsResult, AllRunHere;
  }

  /** The ledger says one, the chain says one more than a new account has. */
  lemma DrainedAgentDiffers(n: nat)
    requires n > 0
    ensures InTimeOrder(Blocks()) && WellPlaced(n, 0, Blocks()) && ShardState(n, 0, Blocks()).Some?
    ensures LedgerBalance(ShardRefs(0, Blocks()), AGENT) == 1
    ensures Read(ShardState(n, 0, Blocks()).value, AGENT).balance == NORMAL_INIT_BALANCE + 1
  {
    SecondBlock(n);
    forall i | 0 <= i < |Blocks()| ensures AllRunHere(Blocks()[i].txs, StaticLocations(Blocks()[i].txs, n), 0) {
      OneTxBlock(map[], n, Blocks()[i].txs[0]);
    }
    ChainBalance(n, 0, Blocks(), AGENT);
    EffectsOfAgent();
  }

  lemma EffectsOfAgent()
    ensures LedgerBalance(ShardRefs(0, Blocks()), AGENT) == 1
  {
    var b0, b1 := Blocks()[0], Blocks()[1];
    assert Blocks()[..1] == [b0] && [b0][..0] == [];
    var r0, r1 := Ref(0, 0, 2, 0, b0.txs[0]), Ref(1, 0, 3, 0, b1.txs[0]);
    assert BlockRefs(0, b0) == [r0] && BlockRefs(0, b1) == [r1];
    assert ShardRefs(0, []) == [] && ShardRefs(0, [b0]) == [r0];
    assert ShardRefs(0, Blocks()) == [r0] + [r1];
    SeqSumOne(r0, RefEffect(AGENT));
    SeqSumSnoc([r0], r1, RefEffect(AGENT));
  }
}
