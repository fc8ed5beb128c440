/** Plain transfers and their relay form. */
module Transactions {
  import opened Accounts

  datatype RelayStage = Undetermined | Relay1 | Relay2

  datatype TxBody = TxBody(sender: Acct, recipient: Acct, value: int, nonce: nat)

  /** Hashing is injective: a hash is represented by what was hashed. */
  datatype TxHash = NoHash | HashOf(body: TxBody)

  datatype TxType = NormalTx | RelayTx

  datatype Tx = Tx(body: TxBody, stage: RelayStage, original: TxHash) {
    function Sender(): Acct { body.sender }
    function Recipient(): Acct { body.recipient }
    function Value(): int { body.value }
    function Hash(): TxHash { HashOf(body) }

    /** The original hash decides the type, not the stage. */
    function Type(): TxType { if original != NoHash then RelayTx else NormalTx }

    /** The account whose shard has to execute the transaction next. */
    function KeyAcct(): Acct { if stage == Relay2 then body.recipient else body.sender }

    predicate Debits(a: Acct) { stage != Relay2 && a == body.sender }
    predicate Credits(a: Acct) { stage != Relay1 && a == body.recipient }

    /** What executing the transaction in the shard of its key account does to account a. */
    function Effect(a: Acct): int {
      (if Credits(a) then body.value else 0) - (if Debits(a) then body.value else 0)
    }
  }

  /** Stage and original hash as the relay operations set them. */
  predicate Coherent(tx: Tx) {
    (tx.stage == Undetermined <==> tx.original == NoHash) &&
    (tx.stage == Relay2 ==> FitsUInt256(tx.body.value))
  }

  /** Value in transit: debited in the sender's shard, not yet credited. */
  function Relay2Value(tx: Tx): int {
    if tx.stage == Relay2 then tx.body.value else 0
  }

  function Relay1Value(tx: Tx): int {
    if tx.stage == Relay1 then tx.body.value else 0
  }
}
