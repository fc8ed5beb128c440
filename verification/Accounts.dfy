/** Account addresses, their states and their default placement. */
module Accounts {

  /** A 20-byte address read as one big-endian number. */
  type Acct = nat
  type Shard = nat

  const NORMAL_INIT_BALANCE: nat := 1_000_000_000_000_000_000_000_000_000_000_000_000
  const UINT256_LIMIT: nat :=
    0x1_0000000000000000_0000000000000000_0000000000000000_0000000000000000

  datatype AcctState = AcctState(balance: nat, nonce: nat) {
    /** geth deletes an account with neither balance nor nonce when a block is committed. */
    predicate IsEmpty() { balance == 0 && nonce == 0 }
  }

  type StateDB = map<Acct, AcctState>

  function NewState(): AcctState { AcctState(NORMAL_INIT_BALANCE, 0) }

  /** The state a reader sees: an account that is not stored counts as a fresh one. */
  function Read(db: StateDB, a: Acct): AcctState {
    if a in db then db[a] else NewState()
  }

  /** The last four bytes of the address select the shard. */
  function DefaultAccountLoc(a: Acct, shardNum: nat): (s: Shard)
    requires shardNum > 0
    ensures s < shardNum
  {
    (a % 0x1_0000_0000) % shardNum
  }

  /** The location trie with its default. */
  function LocOf(loc: map<Acct, Shard>, a: Acct, shardNum: nat): Shard
    requires shardNum > 0
  {
    if a in loc then loc[a] else DefaultAccountLoc(a, shardNum)
  }

  predicate FitsUInt256(v: int) { 0 <= v < UINT256_LIMIT }
}
