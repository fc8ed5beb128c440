/** Packing, forwarding, tagging and splitting of transactions in the relay protocol. */
module RelayOps {
  import opened Prelude
  import opened Accounts
  import opened Transactions
  import opened Execute
  import opened Chain
  import opened Pool = TxPool

  const MIGRATED_TX_NUM: nat := 0x1000_0000

  // -------------------------------------------------------------------- filters

  /** The elements that satisfy p, in order. */
  function Pick<T>(s: seq<T>, p: T -> bool): (r: seq<T>)
    ensures |r| <= |s|
  {
    if s == [] then [] else
    var rest := Pick(s[..|s| - 1], p);
    if p(s[|s| - 1]) then rest + [s[|s| - 1]] else rest
  }

  lemma {:induction false} PickMembers<T>(s: seq<T>, p: T -> bool, x: T)
    ensures x in Pick(s, p) <==> x in s && p(x)
  {
    if s != [] {
      PickMembers(s[..|s| - 1], p, x);
      assert s == s[..|s| - 1] + [s[|s| - 1]];
    }
  }

  lemma {:induction false} PickCounts<T>(s: seq<T>, p: T -> bool, x: T)
    ensures multiset(Pick(s, p))[x] == if p(x) then multiset(s)[x] else 0
  {
    if s != [] {
      assert s == s[..|s| - 1] + [s[|s| - 1]];
      PickCounts(s[..|s| - 1], p, x);
    }
  }

  lemma PickSnoc<T>(s: seq<T>, x: T, p: T -> bool)
    ensures Pick(s + [x], p) == if p(x) then Pick(s, p) + [x] else Pick(s, p)
  {
    assert (s + [x])[..|s|] == s;
  }

  lemma {:induction false} PickAppend<T>(a: seq<T>, b: seq<T>, p: T -> bool)
    ensures Pick(a + b, p) == Pick(a, p) + Pick(b, p)
  {
    if b == [] {
      assert a + b == a;
    } else {
      var b', x := b[..|b| - 1], b[|b| - 1];
      assert b == b' + [x] && a + b == (a + b') + [x];
      PickSnoc(a + b', x, p);
      PickSnoc(b', x, p);
      PickAppend(a, b', p);
    }
  }

  /** One list per shard: the transactions that go there, in order. */
  function ByShard(txs: seq<Tx>, dest: Tx -> Option<Shard>, shardNum: nat): (r: seq<seq<Tx>>)
    ensures |r| == shardNum
  {
    seq(shardNum, d => Pick(txs, (tx: Tx) => dest(tx) == Some(d)))
  }

  lemma {:induction false} ByShardSnoc(txs: seq<Tx>, tx: Tx, dest: Tx -> Option<Shard>, shardNum: nat)
    ensures var before, after := ByShard(txs, dest, shardNum), ByShard(txs + [tx], dest, shardNum);
            after == match dest(tx)
                     case None => before
                     case Some(d) => if d < shardNum then before[d := before[d] + [tx]] else before
  {
    forall d | 0 <= d < shardNum {
      PickSnoc(txs, tx, (t: Tx) => dest(t) == Some(d));
    }
    var before, after := ByShard(txs, dest, shardNum), ByShard(txs + [tx], dest, shardNum);
    assert forall d :: 0 <= d < shardNum ==> after[d] == if dest(tx) == Some(d) then before[d] + [tx] else before[d];
  }

  // ------------------------------------------------------- packing with forwarding

  /** The transaction belongs to this shard, by the location map of this shard. */
  predicate Local(loc: map<Acct, Shard>, shardNum: nat, self: Shard, tx: Tx)
    requires shardNum > 0
  {
    LocOf(loc, tx.KeyAcct(), shardNum) == self
  }

  function IsHere(loc: map<Acct, Shard>, shardNum: nat, self: Shard): Tx -> bool
    requires shardNum > 0
  {
    (tx: Tx) => Local(loc, shardNum, self, tx)
  }

  function Elsewhere(loc: map<Acct, Shard>, shardNum: nat, self: Shard): Tx -> Option<Shard>
    requires shardNum > 0
  {
    (tx: Tx) => if Local(loc, shardNum, self, tx) then None else Some(LocOf(loc, tx.KeyAcct(), shardNum))
  }

  /** How many transactions are popped: just enough to find size local ones, or all of them. */
  function PackCount(pool: seq<Tx>, size: nat, here: Tx -> bool): (k: nat)
    ensures k <= |pool|
  {
    if size == 0 || pool == [] then 0
    else 1 + PackCount(pool[1..], if here(pool[0]) then size - 1 else size, here)
  }

  /** Popping a chunk no larger than what is still missing gives the same count. */
  lemma {:induction false} PackInChunks(chunk: seq<Tx>, rest: seq<Tx>, size: nat, left: nat, here: Tx -> bool)
    requires |chunk| <= size && left + |Pick(chunk, here)| == size
    ensures PackCount(chunk + rest, size, here) == |chunk| + PackCount(rest, left, here)
  {
    if chunk == [] {
      assert chunk + rest == rest;
    } else {
      var pool, tail := chunk + rest, chunk[1..];
      var size' := if here(chunk[0]) then size - 1 else size;
      PickFirst(chunk, |chunk|, here);
      assert chunk[..|chunk|] == chunk && tail[..|chunk| - 1] == tail;
      assert pool[1..] == tail + rest && pool[0] == chunk[0];
      PackInChunks(tail, rest, size', left, here);
    }
  }

  lemma PickFirst(pool: seq<Tx>, t: nat, here: Tx -> bool)
    requires 0 < t <= |pool|
    ensures |Pick(pool[..t], here)| == |Pick(pool[1..][..t - 1], here)| + if here(pool[0]) then 1 else 0
  {
    var x, tail := pool[0], pool[1..];
    assert pool[..t] == [x] + tail[..t - 1];
    PickAppend([x], tail[..t - 1], here);
    assert [] + [x] == [x];
    PickSnoc([], x, here);
  }

  /** The count is the least prefix that holds size local transactions, or the whole pool. */
  lemma {:induction false} PackCountIsLeast(pool: seq<Tx>, size: nat, here: Tx -> bool)
    ensures var k := PackCount(pool, size, here);
            && |Pick(pool[..k], here)| <= size
            && (k < |pool| ==> |Pick(pool[..k], here)| == size)
            && (k > 0 && k < |pool| ==> here(pool[k - 1]))
    decreases pool
  {
    if size == 0 || pool == [] {
      assert pool[..0] == [];
    } else {
      var x, tail := pool[0], pool[1..];
      var size' := if here(x) then size - 1 else size;
      PackCountIsLeast(tail, size', here);
      var k := PackCount(tail, size', here);
      PickFirst(pool, k + 1, here);
      if k == 0 { assert tail[..0] == []; } else { assert pool[k] == tail[k - 1]; }
    }
  }

  /** packValidTxsInRelay, over the pool object and the location map of the chain. */
  method PackValidTxsInRelay(pool: TxPool, chain: Chain, size: nat) returns (packed: seq<Tx>, txs2Shard: seq<seq<Tx>>)
    requires chain.shardNum > 0
    requires forall a :: a in chain.state.loc ==> chain.state.loc[a] < chain.shardNum
    modifies pool
    ensures var k := PackCount(old(pool.queue), size, IsHere(chain.state.loc, chain.shardNum, chain.shardID));
            && packed == Pick(old(pool.queue)[..k], IsHere(chain.state.loc, chain.shardNum, chain.shardID))
            && txs2Shard == ByShard(old(pool.queue)[..k], Elsewhere(chain.state.loc, chain.shardNum, chain.shardID), chain.shardNum)
            && pool.queue == old(pool.queue)[k..]
  {
    ghost var loc, n, self := chain.state.loc, chain.shardNum, chain.shardID;
    ghost var here, elsewhere := IsHere(loc, n, self), Elsewhere(loc, n, self);
    ghost var queue := pool.queue;
    ghost var done: nat := 0;
    var missing: nat := size;
    packed := [];
    txs2Shard := seq(chain.shardNum, _ => []);
    assert txs2Shard == ByShard(queue[..0], elsewhere, chain.shardNum);
    assert PackedSoFar(queue, size, here, 0, size) && packed == Pick(queue[..0], here);
    while missing > 0
      invariant PackedSoFar(queue, size, here, done, missing)
      invariant |packed| + missing == size
      invariant packed == Pick(queue[..done], here)
      invariant pool.queue == queue[done..]
      invariant txs2Shard == ByShard(queue[..done], elsewhere, chain.shardNum)
      decreases |pool.queue|
    {
      hide ByShard, Pick, PackCount, IsHere, Elsewhere;
      var txs := pool.PackTxs(missing);
      if |txs| == 0 { break; }
      var iterPacked;
      iterPacked, txs2Shard := RouteChunk(chain, txs, queue[..done], txs2Shard);
      ghost var before := missing;
      missing := missing - |iterPacked|;
      PackStep(queue, size, here, done, before, txs, pool.queue, missing);
      packed := packed + iterPacked;
      done := done + |txs|;
    }
  }

  /** After done pops the loop is on its way to the least prefix that is full. */
  ghost predicate PackedSoFar(queue: seq<Tx>, size: nat, here: Tx -> bool, done: nat, missing: nat) {
    && done <= |queue|
    && PackCount(queue, size, here) == done + PackCount(queue[done..], missing, here)
  }

  lemma PackStep(queue: seq<Tx>, size: nat, here: Tx -> bool, done: nat, missing: nat, txs: seq<Tx>, rest: seq<Tx>, left: nat)
    requires PackedSoFar(queue, size, here, done, missing)
    requires txs + rest == queue[done..] && |txs| <= missing
    requires left + |Pick(txs, here)| == missing
    ensures PackedSoFar(queue, size, here, done + |txs|, left)
    ensures queue[..done + |txs|] == queue[..done] + txs && rest == queue[done + |txs|..]
    ensures Pick(queue[..done + |txs|], here) == Pick(queue[..done], here) + Pick(txs, here)
  {
    SplitAt(queue, done, txs, rest);
    PackInChunks(txs, rest, missing, left, here);
    PickAppend(queue[..done], txs, here);
  }

  lemma SplitAt(queue: seq<Tx>, done: nat, txs: seq<Tx>, rest: seq<Tx>)
    requires done <= |queue| && txs + rest == queue[done..]
    ensures queue[..done + |txs|] == queue[..done] + txs && rest == queue[done + |txs|..]
  {
    assert rest == queue[done..][|txs|..];
    assert txs == queue[done..][..|txs|];
  }

  /** One popped chunk: local transactions are kept, the others are filed under their shard. */
  method RouteChunk(chain: Chain, txs: seq<Tx>, ghost before: seq<Tx>, filed: seq<seq<Tx>>)
      returns (iterPacked: seq<Tx>, txs2Shard: seq<seq<Tx>>)
    requires chain.shardNum > 0
    requires forall a :: a in chain.state.loc ==> chain.state.loc[a] < chain.shardNum
    requires filed == ByShard(before, Elsewhere(chain.state.loc, chain.shardNum, chain.shardID), chain.shardNum)
    ensures iterPacked == Pick(txs, IsHere(chain.state.loc, chain.shardNum, chain.shardID))
    ensures txs2Shard == ByShard(before + txs, Elsewhere(chain.state.loc, chain.shardNum, chain.shardID), chain.shardNum)
  {
    var loc, n, self := chain.state.loc, chain.shardNum, chain.shardID;
    ghost var here, elsewhere := IsHere(loc, n, self), Elsewhere(loc, n, self);
    var accountLoc := chain.GetAccountLocationsInTxs(txs);
    iterPacked, txs2Shard := [], filed;
    assert before + txs[..0] == before;
    for i := 0 to |txs|
      invariant iterPacked == Pick(txs[..i], here)
      invariant txs2Shard == ByShard(before + txs[..i], elsewhere, n)
    {
      var tx := txs[i];
      var destShard := accountLoc[tx.KeyAcct()];
      assert txs[..i + 1] == txs[..i] + [tx];
      assert before + txs[..i + 1] == (before + txs[..i]) + [tx];
      PickSnoc(txs[..i], tx, here);
      ByShardSnoc(before + txs[..i], tx, elsewhere, n);
      if destShard != self {
        txs2Shard := txs2Shard[destShard := txs2Shard[destShard] + [tx]];
      } else {
        iterPacked := iterPacked + [tx];
      }
    }
    assert txs[..|txs|] == txs;
  }

  // ------------------------------------------------------------ migrating the pool

  /** The new shard of the account a pooled transaction waits for, if that account moves. */
  function MovesTo(modified: map<Acct, Shard>): Tx -> Option<Shard> {
    (tx: Tx) => if tx.KeyAcct() in modified then Some(modified[tx.KeyAcct()]) else None
  }

  function Stays(modified: map<Acct, Shard>): Tx -> bool {
    (tx: Tx) => tx.KeyAcct() !in modified
  }

  method MigrateTxsInRelay(pool: TxPool, modified: map<Acct, Shard>, shardNum: nat) returns (tx2Shards: seq<seq<Tx>>)
    requires forall a :: a in modified ==> modified[a] < shardNum
    modifies pool
    ensures var taken := old(pool.queue)[..Min(MIGRATED_TX_NUM, |old(pool.queue)|)];
            && tx2Shards == ByShard(taken, MovesTo(modified), shardNum)
            && pool.queue == old(pool.queue)[|taken|..] + Pick(taken, Stays(modified))
  {
    var allTxs := pool.PackTxs(MIGRATED_TX_NUM);
    assert allTxs == old(pool.queue)[..|allTxs|] && pool.queue == old(pool.queue)[|allTxs|..];
    assert allTxs == old(pool.queue)[..Min(MIGRATED_TX_NUM, |old(pool.queue)|)];
    var addBackTxs;
    tx2Shards, addBackTxs := RouteMigrated(allTxs, modified, shardNum);
    pool.AddTxs(addBackTxs);
  }

  method RouteMigrated(allTxs: seq<Tx>, modified: map<Acct, Shard>, shardNum: nat)
      returns (tx2Shards: seq<seq<Tx>>, addBackTxs: seq<Tx>)
    requires forall a :: a in modified ==> modified[a] < shardNum
    ensures tx2Shards == ByShard(allTxs, MovesTo(modified), shardNum)
    ensures addBackTxs == Pick(allTxs, Stays(modified))
  {
    ghost var moves, stays := MovesTo(modified), Stays(modified);
    tx2Shards, addBackTxs := seq(shardNum, _ => []), [];
    assert tx2Shards == ByShard(allTxs[..0], moves, shardNum);
    for i := 0 to |allTxs|
      invariant tx2Shards == ByShard(allTxs[..i], moves, shardNum)
      invariant addBackTxs == Pick(allTxs[..i], stays)
    {
      var tx := allTxs[i];
      assert allTxs[..i + 1] == allTxs[..i] + [tx];
      ByShardSnoc(allTxs[..i], tx, moves, shardNum);
      PickSnoc(allTxs[..i], tx, stays);
      if tx.KeyAcct() in modified {
        tx2Shards := tx2Shards[modified[tx.KeyAcct()] := tx2Shards[modified[tx.KeyAcct()]] + [tx]];
      } else {
        addBackTxs := addBackTxs + [tx];
      }
    }
    assert allTxs[..|allTxs|] == allTxs;
  }

  // ------------------------------------------------------------- tagging and splitting

  /** Tag one packed transaction: None when its sender is not here. */
  function Tagged(loc: map<Acct, Shard>, shardNum: nat, self: Shard, tx: Tx): Option<Tx>
    requires shardNum > 0
  {
    if tx.stage != Undetermined then Some(tx) else
    if LocOf(loc, tx.Sender(), shardNum) != self then None else
    if LocOf(loc, tx.Recipient(), shardNum) == self then Some(tx) else
    Some(tx.(stage := Relay1, original := tx.Hash()))
  }

  function TaggedAll(loc: map<Acct, Shard>, shardNum: nat, self: Shard, txs: seq<Tx>): seq<Tx>
    requires shardNum > 0
  {
    if txs == [] then [] else
    var rest := TaggedAll(loc, shardNum, self, txs[..|txs| - 1]);
    match Tagged(loc, shardNum, self, txs[|txs| - 1])
    case None => rest
    case Some(tx) => rest + [tx]
  }

  method ModifyTxRelayOpt(chain: Chain, txs: seq<Tx>) returns (modifiedTxs: seq<Tx>)
    requires chain.shardNum > 0
    ensures modifiedTxs == TaggedAll(chain.state.loc, chain.shardNum, chain.shardID, txs)
  {
    var accountLocations := chain.GetAccountLocationsInTxs(txs);
    modifiedTxs := [];
    for i := 0 to |txs|
      invariant modifiedTxs == TaggedAll(chain.state.loc, chain.shardNum, chain.shardID, txs[..i])
    {
      var tx := txs[i];
      assert txs[..i + 1][..i] == txs[..i];
      if tx.stage != Undetermined {
        modifiedTxs := modifiedTxs + [tx];
        continue;
      }
      var senderID := accountLocations[tx.Sender()];
      var recipientID := accountLocations[tx.Recipient()];
      if senderID != chain.shardID { continue; }
      if senderID == recipientID {
        modifiedTxs := modifiedTxs + [tx];
        continue;
      }
      modifiedTxs := modifiedTxs + [tx.(stage := Relay1, original := tx.Hash())];
    }
    assert txs[..|txs|] == txs;
  }

  /** A local transaction is tagged so that it runs here, with the same accounts and transit value. */
  lemma TaggedOne(loc: map<Acct, Shard>, shardNum: nat, self: Shard, tx: Tx)
    requires shardNum > 0 && Coherent(tx) && Local(loc, shardNum, self, tx) && tx.stage != Relay1
    ensures var r := Tagged(loc, shardNum, self, tx);
            && r.Some? && r.value.body == tx.body
            && Relay2Value(r.value) == Relay2Value(tx)
            && forall l: map<Acct, Shard> :: tx.Sender() in l && tx.Recipient() in l &&
                 l[tx.Sender()] == LocOf(loc, tx.Sender(), shardNum) && l[tx.Recipient()] == LocOf(loc, tx.Recipient(), shardNum)
                 ==> RunsHere(r.value, l, self)
  {
  }

  /** What is packed here and tagged here also runs here, and keeps its transit value. */
  lemma {:induction false} TaggedRunHere(loc: map<Acct, Shard>, shardNum: nat, self: Shard, txs: seq<Tx>)
    requires shardNum > 0
    requires forall tx :: tx in txs ==> Coherent(tx) && Local(loc, shardNum, self, tx) && tx.stage != Relay1
    ensures var tagged := TaggedAll(loc, shardNum, self, txs);
            && |tagged| == |txs|
            && AccountsOf(tagged) == AccountsOf(txs)
            && AllRunHere(tagged, LocationsInTxs(loc, shardNum, tagged), self)
            && SeqSum(tagged, Relay2Value) == SeqSum(txs, Relay2Value)
  {
    if txs != [] {
      var most, last := txs[..|txs| - 1], txs[|txs| - 1];
      assert last in txs;
      TaggedRunHere(loc, shardNum, self, most);
      TaggedOne(loc, shardNum, self, last);
      var tmost := TaggedAll(loc, shardNum, self, most);
      var x := Tagged(loc, shardNum, self, last).value;
      var tagged := tmost + [x];
      assert TaggedAll(loc, shardNum, self, txs) == tagged;
      assert tagged[..|tmost|] == tmost && tagged[|tagged| - 1] == x;
      assert RunsHere(x, LocationsInTxs(loc, shardNum, tagged), self);
      AllRunHereSnoc(loc, shardNum, self, tmost, x);
      SeqSumSnoc(tmost, x, Relay2Value);
    }
  }

  lemma AllRunHereSnoc(loc: map<Acct, Shard>, shardNum: nat, self: Shard, txs: seq<Tx>, x: Tx)
    requires shardNum > 0
    requires AllRunHere(txs, LocationsInTxs(loc, shardNum, txs), self)
    requires RunsHere(x, LocationsInTxs(loc, shardNum, txs + [x]), self)
    ensures AllRunHere(txs + [x], LocationsInTxs(loc, shardNum, txs + [x]), self)
  {
    var before, after := LocationsInTxs(loc, shardNum, txs), LocationsInTxs(loc, shardNum, txs + [x]);
    forall i | 0 <= i < |txs + [x]| ensures RunsHere((txs + [x])[i], after, self) {
      if i < |txs| {
        assert RunsHere(txs[i], before, self);
      }
    }
  }

  /**
   * Tagging, transaction by transaction: a second leg passes as it is, a payment between two accounts of this shard
   * stays whole, and any other payment becomes a first leg that remembers its hash.
   */
  lemma {:induction false} TaggedIs(loc: map<Acct, Shard>, shardNum: nat, self: Shard, txs: seq<Tx>, i: nat)
    requires shardNum > 0 && i < |txs|
    requires forall tx :: tx in txs ==> Coherent(tx) && Local(loc, shardNum, self, tx) && tx.stage != Relay1
    ensures var tagged, tx := TaggedAll(loc, shardNum, self, txs), txs[i];
            && |tagged| == |txs| && tagged[i].body == tx.body
            && (tx.stage == Relay2 ==> tagged[i] == tx && LocOf(loc, tx.body.recipient, shardNum) == self)
            && (tx.stage == Undetermined ==>
                  && LocOf(loc, tx.body.sender, shardNum) == self
                  && (LocOf(loc, tx.body.recipient, shardNum) == self ==> tagged[i] == tx)
                  && (LocOf(loc, tx.body.recipient, shardNum) != self ==> tagged[i] == Tx(tx.body, Relay1, HashOf(tx.body))))
  {
    var most, last := txs[..|txs| - 1], txs[|txs| - 1];
    assert last in txs;
    TaggedRunHere(loc, shardNum, self, most);
    TaggedOne(loc, shardNum, self, last);
    if i < |most| {
      TaggedIs(loc, shardNum, self, most, i);
    }
  }

  function OfStage(stage: RelayStage): Tx -> bool { (tx: Tx) => tx.stage == stage }

  method SplitTxs(txs: seq<Tx>) returns (innerTxs: seq<Tx>, r1txs: seq<Tx>, r2txs: seq<Tx>)
    ensures innerTxs == Pick(txs, OfStage(Undetermined))
    ensures r1txs == Pick(txs, OfStage(Relay1))
    ensures r2txs == Pick(txs, OfStage(Relay2))
  {
    innerTxs, r1txs, r2txs := [], [], [];
    for i := 0 to |txs|
      invariant innerTxs == Pick(txs[..i], OfStage(Undetermined))
      invariant r1txs == Pick(txs[..i], OfStage(Relay1))
      invariant r2txs == Pick(txs[..i], OfStage(Relay2))
    {
      assert txs[..i + 1] == txs[..i] + [txs[i]];
      PickSnoc(txs[..i], txs[i], OfStage(Undetermined));
      PickSnoc(txs[..i], txs[i], OfStage(Relay1));
      PickSnoc(txs[..i], txs[i], OfStage(Relay2));
      match txs[i].stage {
        case Undetermined => innerTxs := innerTxs + [txs[i]];
        case Relay1 => r1txs := r1txs + [txs[i]];
        case Relay2 => r2txs := r2txs + [txs[i]];
      }
    }
    assert txs[..|txs|] == txs;
  }

  // ---------------------------------------------------------------- relaying on commit

  function AsRelay2(tx: Tx): Tx { tx.(stage := Relay2) }

  /** The relay-2 legs of the committed relay-1 transactions, in order. */
  function Relay2Legs(r1Txs: seq<Tx>): seq<Tx> {
    if r1Txs == [] then [] else Relay2Legs(r1Txs[..|r1Txs| - 1]) + [AsRelay2(r1Txs[|r1Txs| - 1])]
  }

  function RecipientShard(loc: map<Acct, Shard>, shardNum: nat): Tx -> Option<Shard>
    requires shardNum > 0
  {
    (tx: Tx) => Some(LocOf(loc, tx.Recipient(), shardNum))
  }

  lemma {:induction false} LegsMembers(r1Txs: seq<Tx>, leg: Tx)
    ensures leg in Relay2Legs(r1Txs) <==> exists tx :: tx in r1Txs && leg == tx.(stage := Relay2)
  {
    if r1Txs != [] {
      var most, last := r1Txs[..|r1Txs| - 1], r1Txs[|r1Txs| - 1];
      LegsMembers(most, leg);
      assert r1Txs == most + [last];
      assert leg == last.(stage := Relay2) ==> last in r1Txs;
    }
  }

  /** Every first leg has its second leg in the list of the shard where its recipient is placed, and in no other. */
  lemma LegsAreFiled(r1Txs: seq<Tx>, loc: map<Acct, Shard>, shardNum: nat)
    requires shardNum > 0 && forall a :: a in loc ==> loc[a] < shardNum
    ensures var lists := ByShard(Relay2Legs(r1Txs), RecipientShard(loc, shardNum), shardNum);
            && (forall d, leg :: 0 <= d < shardNum && leg in lists[d] ==>
                  leg.stage == Relay2 && LocOf(loc, leg.body.recipient, shardNum) == d && leg in Relay2Legs(r1Txs))
            && (forall tx :: tx in r1Txs ==>
                  var d := LocOf(loc, tx.body.recipient, shardNum); d < shardNum && tx.(stage := Relay2) in lists[d])
  {
    var dest := RecipientShard(loc, shardNum);
    var lists := ByShard(Relay2Legs(r1Txs), dest, shardNum);
    forall d, leg: Tx | 0 <= d < shardNum && leg in lists[d]
      ensures leg.stage == Relay2 && LocOf(loc, leg.body.recipient, shardNum) == d && leg in Relay2Legs(r1Txs)
    {
      PickMembers(Relay2Legs(r1Txs), (t: Tx) => dest(t) == Some(d), leg);
      LegsMembers(r1Txs, leg);
    }
    forall tx | tx in r1Txs
      ensures var d := LocOf(loc, tx.body.recipient, shardNum); d < shardNum && tx.(stage := Relay2) in lists[d]
    {
      var d := LocOf(loc, tx.body.recipient, shardNum);
      LegsMembers(r1Txs, tx.(stage := Relay2));
      PickMembers(Relay2Legs(r1Txs), (t: Tx) => dest(t) == Some(d), tx.(stage := Relay2));
    }
  }

  method SendRelayedTxs(chain: Chain, txList: seq<Tx>, r1Txs: seq<Tx>) returns (relayedTxs: seq<seq<Tx>>)
    requires chain.shardNum > 0
    requires forall a :: a in chain.state.loc ==> chain.state.loc[a] < chain.shardNum
    requires forall tx :: tx in r1Txs ==> tx in txList
    ensures relayedTxs == ByShard(Relay2Legs(r1Txs), RecipientShard(chain.state.loc, chain.shardNum), chain.shardNum)
    ensures |relayedTxs| == chain.shardNum
    ensures forall d, leg :: 0 <= d < |relayedTxs| && leg in relayedTxs[d] ==>
              leg.stage == Relay2 && LocOf(chain.state.loc, leg.body.recipient, chain.shardNum) == d
    ensures forall tx :: tx in r1Txs ==>
              var d := LocOf(chain.state.loc, tx.body.recipient, chain.shardNum);
              d < |relayedTxs| && tx.(stage := Relay2) in relayedTxs[d]
  {
    LegsAreFiled(r1Txs, chain.state.loc, chain.shardNum);
    var accountLocations := chain.GetAccountLocationsInTxs(txList);
    ghost var dest := RecipientShard(chain.state.loc, chain.shardNum);
    relayedTxs := seq(chain.shardNum, _ => []);
    assert relayedTxs == ByShard([], dest, chain.shardNum);
    for i := 0 to |r1Txs|
      invariant relayedTxs == ByShard(Relay2Legs(r1Txs[..i]), dest, chain.shardNum)
    {
      var tx := r1Txs[i];
      assert r1Txs[..i + 1][..i] == r1Txs[..i];
      ByShardSnoc(Relay2Legs(r1Txs[..i]), AsRelay2(tx), dest, chain.shardNum);
      assert tx in txList;
      assert tx.Recipient() in accountLocations by {
        var j :| 0 <= j < |txList| && txList[j] == tx;
      }
      var shardID := accountLocations[tx.Recipient()];
      relayedTxs := relayedTxs[shardID := relayedTxs[shardID] + [AsRelay2(tx)]];
    }
    assert r1Txs[..|r1Txs|] == r1Txs;
  }

  // ------------------------------------------------------------------ conservation

  ghost function ShardSums(lists: seq<seq<Tx>>, f: Tx -> int): int {
    SeqSum(lists, (txs: seq<Tx>) => SeqSum(txs, f))
  }

  /** The per-shard lists hold exactly the transactions that have a destination. */
  lemma {:induction false} ByShardSums(txs: seq<Tx>, dest: Tx -> Option<Shard>, shardNum: nat, f: Tx -> int)
    requires forall tx :: tx in txs && dest(tx).Some? ==> dest(tx).value < shardNum
    ensures ShardSums(ByShard(txs, dest, shardNum), f) ==
            SeqSum(Pick(txs, (tx: Tx) => dest(tx).Some?), f)
  {
    var g := (l: seq<Tx>) => SeqSum(l, f);
    var sent := (tx: Tx) => dest(tx).Some?;
    if txs == [] {
      EmptyListsSum(ByShard(txs, dest, shardNum), g);
    } else {
      var most, last := txs[..|txs| - 1], txs[|txs| - 1];
      assert txs == most + [last];
      ByShardSums(most, dest, shardNum, f);
      ByShardSnoc(most, last, dest, shardNum);
      PickSnoc(most, last, sent);
      var before := ByShard(most, dest, shardNum);
      if dest(last).Some? {
        var d := dest(last).value;
        SeqSumUpdate(before, d, before[d] + [last], g);
        SeqSumSnoc(before[d], last, f);
        SeqSumSnoc(Pick(most, sent), last, f);
      }
    }
  }

  lemma {:induction false} EmptyListsSum(lists: seq<seq<Tx>>, g: seq<Tx> -> int)
    requires forall i :: 0 <= i < |lists| ==> lists[i] == []
    requires g([]) == 0
    ensures SeqSum(lists, g) == 0
  {
    if lists != [] { EmptyListsSum(lists[..|lists| - 1], g); }
  }

  /** A filter and its complement share out every measure. */
  lemma {:induction false} PickSums(txs: seq<Tx>, p: Tx -> bool, q: Tx -> bool, f: Tx -> int)
    requires forall tx :: tx in txs ==> p(tx) != q(tx)
    ensures SeqSum(txs, f) == SeqSum(Pick(txs, p), f) + SeqSum(Pick(txs, q), f)
  {
    if txs != [] {
      var most, last := txs[..|txs| - 1], txs[|txs| - 1];
      assert txs == most + [last];
      PickSums(most, p, q, f);
      PickSnoc(most, last, p);
      PickSnoc(most, last, q);
      SeqSumSnoc(most, last, f);
      SeqSumSnoc(Pick(most, p), last, f);
      SeqSumSnoc(Pick(most, q), last, f);
    }
  }

  /** Number mode loses and invents nothing: popped is packed or forwarded, the rest stays. */
  lemma PackingConserves(pool: seq<Tx>, size: nat, loc: map<Acct, Shard>, shardNum: nat, self: Shard, f: Tx -> int)
    requires self < shardNum
    requires forall a :: a in loc ==> loc[a] < shardNum
    ensures var here := IsHere(loc, shardNum, self);
            var k := PackCount(pool, size, here);
            SeqSum(pool, f) == SeqSum(Pick(pool[..k], here), f)
                             + ShardSums(ByShard(pool[..k], Elsewhere(loc, shardNum, self), shardNum), f)
                             + SeqSum(pool[k..], f)
  {
    var here, elsewhere := IsHere(loc, shardNum, self), Elsewhere(loc, shardNum, self);
    var k := PackCount(pool, size, here);
    assert pool == pool[..k] + pool[k..];
    SeqSumAppend(pool[..k], pool[k..], f);
    PickSums(pool[..k], here, (tx: Tx) => elsewhere(tx).Some?, f);
    ByShardSums(pool[..k], elsewhere, shardNum, f);
  }

  /** Every popped transaction ends up in one place: packed if its key account lives here, else with that account's shard. */
  lemma PackedOrForwarded(pool: seq<Tx>, size: nat, loc: map<Acct, Shard>, shardNum: nat, self: Shard, tx: Tx, d: Shard)
    requires self < shardNum && d < shardNum
    ensures var k := PackCount(pool, size, IsHere(loc, shardNum, self));
            var home := LocOf(loc, tx.KeyAcct(), shardNum);
            && multiset(Pick(pool[..k], IsHere(loc, shardNum, self)))[tx] == (if home == self then multiset(pool[..k])[tx] else 0)
            && multiset(ByShard(pool[..k], Elsewhere(loc, shardNum, self), shardNum)[d])[tx]
               == (if home == d != self then multiset(pool[..k])[tx] else 0)
  {
    var k := PackCount(pool, size, IsHere(loc, shardNum, self));
    PickCounts(pool[..k], IsHere(loc, shardNum, self), tx);
    PickCounts(pool[..k], (t: Tx) => Elsewhere(loc, shardNum, self)(t) == Some(d), tx);
  }

  /** A pooled transaction of a moving account goes to the account's new shard, every other one stays. */
  lemma MigratedOrKept(taken: seq<Tx>, modified: map<Acct, Shard>, shardNum: nat, tx: Tx, d: Shard)
    requires d < shardNum
    ensures multiset(Pick(taken, Stays(modified)))[tx] == (if tx.KeyAcct() !in modified then multiset(taken)[tx] else 0)
    ensures multiset(ByShard(taken, MovesTo(modified), shardNum)[d])[tx]
            == (if tx.KeyAcct() in modified && modified[tx.KeyAcct()] == d then multiset(taken)[tx] else 0)
  {
    PickCounts(taken, Stays(modified), tx);
    PickCounts(taken, (t: Tx) => MovesTo(modified)(t) == Some(d), tx);
  }

  /** Moving the pool of a freezing shard loses and invents nothing either. */
  lemma MigratingConserves(pool: seq<Tx>, modified: map<Acct, Shard>, shardNum: nat, f: Tx -> int)
    requires forall a :: a in modified ==> modified[a] < shardNum
    ensures var taken := pool[..Min(MIGRATED_TX_NUM, |pool|)];
            SeqSum(pool, f) == ShardSums(ByShard(taken, MovesTo(modified), shardNum), f)
                             + SeqSum(pool[|taken|..] + Pick(taken, Stays(modified)), f)
  {
    var t := Min(MIGRATED_TX_NUM, |pool|);
    var taken := pool[..t];
    var moves, stays := MovesTo(modified), Stays(modified);
    assert pool == taken + pool[t..];
    SeqSumAppend(taken, pool[t..], f);
    SeqSumAppend(pool[t..], Pick(taken, stays), f);
    PickSums(taken, (tx: Tx) => moves(tx).Some?, stays, f);
    ByShardSums(taken, moves, shardNum, f);
  }

  /** Committing relay-1 transactions puts exactly their value in transit. */
  lemma {:induction false} RelayingConserves(txs: seq<Tx>, loc: map<Acct, Shard>, shardNum: nat)
    requires shardNum > 0
    requires forall a :: a in loc ==> loc[a] < shardNum
    ensures var r1Txs := Pick(txs, OfStage(Relay1));
            ShardSums(ByShard(Relay2Legs(r1Txs), RecipientShard(loc, shardNum), shardNum), Relay2Value)
            == SeqSum(txs, Relay1Value)
  {
    var r1Txs := Pick(txs, OfStage(Relay1));
    var dest := RecipientShard(loc, shardNum);
    var legs := Relay2Legs(r1Txs);
    ByShardSums(legs, dest, shardNum, Relay2Value);
    PickAll(legs, (tx: Tx) => dest(tx).Some?);
    forall tx | tx in r1Txs ensures tx.stage == Relay1 {
      PickMembers(txs, OfStage(Relay1), tx);
    }
    LegsSum(r1Txs);
    Relay1Picked(txs);
  }

  lemma {:induction false} PickAll<T>(s: seq<T>, p: T -> bool)
    requires forall x :: x in s ==> p(x)
    ensures Pick(s, p) == s
  {
    if s != [] {
      PickAll(s[..|s| - 1], p);
      assert s[|s| - 1] in s;
    }
  }

  lemma {:induction false} LegsSum(r1Txs: seq<Tx>)
    requires forall tx :: tx in r1Txs ==> tx.stage == Relay1
    ensures SeqSum(Relay2Legs(r1Txs), Relay2Value) == SeqSum(r1Txs, Relay1Value)
  {
    if r1Txs != [] {
      var most, last := r1Txs[..|r1Txs| - 1], r1Txs[|r1Txs| - 1];
      assert last in r1Txs;
      LegsSum(most);
      SeqSumSnoc(Relay2Legs(most), AsRelay2(last), Relay2Value);
    }
  }

  lemma {:induction false} Relay1Picked(txs: seq<Tx>)
    ensures SeqSum(Pick(txs, OfStage(Relay1)), Relay1Value) == SeqSum(txs, Relay1Value)
  {
    if txs != [] {
      var most, last := txs[..|txs| - 1], txs[|txs| - 1];
      assert txs == most + [last];
      Relay1Picked(most);
      PickSnoc(most, last, OfStage(Relay1));
      SeqSumSnoc(most, last, Relay1Value);
      SeqSumSnoc(Pick(most, OfStage(Relay1)), last, Relay1Value);
    }
  }
}
