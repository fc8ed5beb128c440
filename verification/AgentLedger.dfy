/** The per-agent ledger, rebuilt from the blocks of all shards by one global sort. */
module AgentLedger {
  import opened Prelude
  import opened Accounts
  import opened Transactions
  import opened Execute
  import opened RelayOps
  import Chain

  datatype LBlock = LBlock(time: int, number: nat, txs: seq<Tx>)

  /** A transaction where it was executed. */
  datatype Ref = Ref(time: int, shard: Shard, height: nat, index: nat, tx: Tx)

  datatype Row = Row(height: nat, hash: TxHash, sender: Acct, recipient: Acct, value: int, balance: int, time: int)

  // ------------------------------------------------------------------------- references

  function BlockRefs(shard: Shard, b: LBlock): seq<Ref> {
    seq(|b.txs|, i requires 0 <= i < |b.txs| => Ref(b.time, shard, b.number, i, b.txs[i]))
  }

  function ShardRefs(shard: Shard, blocks: seq<LBlock>): seq<Ref> {
    if blocks == [] then [] else ShardRefs(shard, blocks[..|blocks| - 1]) + BlockRefs(shard, blocks[|blocks| - 1])
  }

  function AllRefs(perShard: seq<seq<LBlock>>): seq<Ref> {
    if perShard == [] then [] else
    AllRefs(perShard[..|perShard| - 1]) + ShardRefs(|perShard| - 1, perShard[|perShard| - 1])
  }

  /** Block time first, then shard, height and position in the block. */
  predicate Earlier(a: Ref, b: Ref) {
    if a.time != b.time then a.time < b.time
    else if a.shard != b.shard then a.shard < b.shard
    else if a.height != b.height then a.height < b.height
    else a.index < b.index
  }

  ghost predicate Sorted(s: seq<Ref>) {
    forall i, j :: 0 <= i < j < |s| ==> !Earlier(s[j], s[i])
  }

  ghost predicate StrictlySorted(s: seq<Ref>) {
    forall i, j :: 0 <= i < j < |s| ==> Earlier(s[i], s[j])
  }

  // ---------------------------------------------------------------------------- sorting

  lemma Inserted(s: seq<Ref>, x: Ref, k: nat)
    requires Sorted(s) && k <= |s|
    requires forall i :: 0 <= i < k ==> !Earlier(x, s[i])
    requires forall i :: k <= i < |s| ==> Earlier(x, s[i])
    ensures Sorted(s[..k] + [x] + s[k..]) && multiset(s[..k] + [x] + s[k..]) == multiset(s) + multiset{x}
  {
    assert s == s[..k] + s[k..];
  }

  method SortStable(refs: seq<Ref>) returns (s: seq<Ref>)
    ensures Sorted(s) && multiset(s) == multiset(refs)
  {
    s := [];
    for i := 0 to |refs|
      invariant Sorted(s) && multiset(s) == multiset(refs[..i])
    {
      var x, k := refs[i], |s|;
      while k > 0 && Earlier(x, s[k - 1])
        invariant 0 <= k <= |s|
        invariant forall j :: k <= j < |s| ==> Earlier(x, s[j])
      {
        k := k - 1;
      }
      assert refs[..i + 1] == refs[..i] + [x];
      Inserted(s, x, k);
      s := s[..k] + [x] + s[k..];
    }
    assert refs[..|refs|] == refs;
  }

  // ------------------------------------------------------------------------------- rows

  function LogicalHash(tx: Tx): TxHash { if tx.original != NoHash then tx.original else tx.Hash() }

  function RowOf(r: Ref, balance: int): Row {
    Row(r.height, LogicalHash(r.tx), r.tx.Sender(), r.tx.Recipient(), r.tx.Value(), balance, r.time)
  }

  ghost function RefEffect(a: Acct): Ref -> int { (r: Ref) => r.tx.Effect(a) }

  /** The running balance of the ledger. */
  ghost function LedgerBalance(refs: seq<Ref>, a: Acct): int {
    NORMAL_INIT_BALANCE + SeqSum(refs, RefEffect(a))
  }

  /** The rows of one account: a debit row and a credit row where the transaction debits and credits it. */
  ghost function RowsFor(refs: seq<Ref>, a: Acct): seq<Row> {
    if refs == [] then [] else
    var most, r := refs[..|refs| - 1], refs[|refs| - 1];
    var before := LedgerBalance(most, a);
    var debited := if r.tx.Debits(a) then before - r.tx.Value() else before;
    RowsFor(most, a)
      + (if r.tx.Debits(a) then [RowOf(r, debited)] else [])
      + (if r.tx.Credits(a) then [RowOf(r, debited + r.tx.Value())] else [])
  }

  function RowsAt(rows: map<string, seq<Row>>, id: string): seq<Row> { if id in rows then rows[id] else [] }

  predicate Injective(agents: map<Acct, string>) {
    forall a, b :: a in agents && b in agents && agents[a] == agents[b] ==> a == b
  }

  function Balance(balances: map<Acct, int>, a: Acct): int {
    if a in balances then balances[a] else NORMAL_INIT_BALANCE
  }

  /** Rows and balances of every agent after the first references. */
  ghost predicate LedgerUpTo(agents: map<Acct, string>, refs: seq<Ref>, balances: map<Acct, int>, rows: map<string, seq<Row>>) {
    forall a :: a in agents ==> Balance(balances, a) == LedgerBalance(refs, a) && RowsAt(rows, agents[a]) == RowsFor(refs, a)
  }

  lemma NothingRecorded(agents: map<Acct, string>)
    ensures LedgerUpTo(agents, [], map[], map[])
  {
  }

  /** The rows of every agent, together with the order they follow. */
  method BuildAgentRows(perShard: seq<seq<LBlock>>, agents: map<Acct, string>)
      returns (rows: map<string, seq<Row>>, sorted: seq<Ref>)
    requires Injective(agents)
    ensures Sorted(sorted) && multiset(sorted) == multiset(AllRefs(perShard))
    ensures forall a :: a in agents ==> RowsAt(rows, agents[a]) == RowsFor(sorted, a)
  {
    var refs := CollectRefs(perShard);
    refs := SortStable(refs);
    hide *;
    NothingRecorded(agents);
    sorted := refs;
    var balances: map<Acct, int> := map[];
    rows := map[];
    for i := 0 to |refs|
      invariant LedgerUpTo(agents, refs[..i], balances, rows)
    {
      assert refs[..i + 1] == refs[..i] + [refs[i]];
      balances, rows := Record(agents, refs[..i], refs[i], balances, rows);
    }
    assert refs[..|refs|] == refs;
    LedgerRows(agents, refs, balances, rows);
  }

  lemma LedgerRows(agents: map<Acct, string>, refs: seq<Ref>, balances: map<Acct, int>, rows: map<string, seq<Row>>)
    requires LedgerUpTo(agents, refs, balances, rows)
    ensures forall a :: a in agents ==> RowsAt(rows, agents[a]) == RowsFor(refs, a)
  {
  }

  method CollectRefs(perShard: seq<seq<LBlock>>) returns (refs: seq<Ref>)
    ensures refs == AllRefs(perShard)
  {
    refs := [];
    for shard := 0 to |perShard|
      invariant refs == AllRefs(perShard[..shard])
    {
      var blocks := perShard[shard];
      ghost var before := refs;
      assert perShard[..shard + 1][..shard] == perShard[..shard];
      for k := 0 to |blocks|
        invariant refs == before + ShardRefs(shard, blocks[..k])
      {
        assert blocks[..k + 1][..k] == blocks[..k];
        var b := blocks[k];
        ghost var here := refs;
        for i := 0 to |b.txs|
          invariant refs == here + BlockRefs(shard, b)[..i]
        {
          refs := refs + [Ref(b.time, shard, b.number, i, b.txs[i])];
        }
      }
      assert blocks[..|blocks|] == blocks;
    }
    assert perShard[..|perShard|] == perShard;
  }

  /** Balance and rows of account a after the debit side of r. */
  ghost function Debited(refs: seq<Ref>, r: Ref, a: Acct): (int, seq<Row>) {
    var before := LedgerBalance(refs, a);
    if r.tx.Debits(a) then (before - r.tx.Value(), RowsFor(refs, a) + [RowOf(r, before - r.tx.Value())]) else (before, RowsFor(refs, a))
  }

  ghost predicate DebitedUpTo(agents: map<Acct, string>, refs: seq<Ref>, r: Ref, balances: map<Acct, int>, rows: map<string, seq<Row>>) {
    forall a :: a in agents ==> (Balance(balances, a), RowsAt(rows, agents[a])) == Debited(refs, r, a)
  }

  /** The sender's row. */
  method RecordDebit(agents: map<Acct, string>, ghost refs: seq<Ref>, r: Ref, balances: map<Acct, int>, rows: map<string, seq<Row>>)
      returns (balances': map<Acct, int>, rows': map<string, seq<Row>>)
    requires Injective(agents) && LedgerUpTo(agents, refs, balances, rows)
    ensures DebitedUpTo(agents, refs, r, balances', rows')
  {
    balances', rows' := balances, rows;
    var sender := r.tx.Sender();
    if sender in agents && r.tx.stage != Relay2 {
      var balance := Balance(balances, sender) - r.tx.Value();
      balances' := balances[sender := balance];
      rows' := rows[agents[sender] := RowsAt(rows, agents[sender]) + [RowOf(r, balance)]];
    }
  }

  /** The recipient's row. */
  method RecordCredit(agents: map<Acct, string>, ghost refs: seq<Ref>, r: Ref, balances: map<Acct, int>, rows: map<string, seq<Row>>)
      returns (balances': map<Acct, int>, rows': map<string, seq<Row>>)
    requires Injective(agents) && DebitedUpTo(agents, refs, r, balances, rows)
    ensures LedgerUpTo(agents, refs + [r], balances', rows')
  {
    balances', rows' := balances, rows;
    var recipient := r.tx.Recipient();
    if recipient in agents && (r.tx.stage == Relay2 || r.tx.stage == Undetermined) {
      var balance := Balance(balances, recipient) + r.tx.Value();
      balances' := balances[recipient := balance];
      rows' := rows[agents[recipient] := RowsAt(rows, agents[recipient]) + [RowOf(r, balance)]];
    }
    forall a | a in agents ensures Balance(balances', a) == LedgerBalance(refs + [r], a) && RowsAt(rows', agents[a]) == RowsFor(refs + [r], a) {
      OneMoreRef(refs, r, a);
    }
  }

  lemma OneMoreRef(refs: seq<Ref>, r: Ref, a: Acct)
    ensures var (balance, rows) := Debited(refs, r, a);
            && LedgerBalance(refs + [r], a) == (if r.tx.Credits(a) then balance + r.tx.Value() else balance)
            && RowsFor(refs + [r], a) == rows + if r.tx.Credits(a) then [RowOf(r, balance + r.tx.Value())] else []
  {
    assert (refs + [r])[..|refs|] == refs;
  }

  method Record(agents: map<Acct, string>, ghost refs: seq<Ref>, r: Ref, balances: map<Acct, int>, rows: map<string, seq<Row>>)
      returns (balances': map<Acct, int>, rows': map<string, seq<Row>>)
    requires Injective(agents) && LedgerUpTo(agents, refs, balances, rows)
    ensures LedgerUpTo(agents, refs + [r], balances', rows')
  {
    balances', rows' := RecordDebit(agents, refs, r, balances, rows);
    balances', rows' := RecordCredit(agents, refs, r, balances', rows');
  }

  // --------------------------------------------------- the sort restores each shard's order

  /** Heights grow and times do not go back. */
  ghost predicate InTimeOrder(blocks: seq<LBlock>) {
    forall i, j :: 0 <= i < j < |blocks| ==> blocks[i].number < blocks[j].number && blocks[i].time <= blocks[j].time
  }

  lemma {:induction false} ShardRefsAre(shard: Shard, blocks: seq<LBlock>, r: Ref)
    requires r in ShardRefs(shard, blocks)
    ensures r.shard == shard && exists b :: b in blocks && r in BlockRefs(shard, b) && r.time == b.time && r.height == b.number
  {
    var most, last := blocks[..|blocks| - 1], blocks[|blocks| - 1];
    assert blocks == most + [last];
    if r in ShardRefs(shard, most) { ShardRefsAre(shard, most, r); } else { assert r in BlockRefs(shard, last); }
  }

  lemma {:induction false} ShardRefsSorted(shard: Shard, blocks: seq<LBlock>)
    requires InTimeOrder(blocks)
    ensures StrictlySorted(ShardRefs(shard, blocks))
  {
    if blocks != [] {
      var most, last := blocks[..|blocks| - 1], blocks[|blocks| - 1];
      ShardRefsSorted(shard, most);
      var before, here := ShardRefs(shard, most), BlockRefs(shard, last);
      forall i, j | 0 <= i < j < |before + here| ensures Earlier((before + here)[i], (before + here)[j]) {
        if i < |before| <= j {
          ShardRefsAre(shard, most, before[i]);
          var b :| b in most && before[i].time == b.time && before[i].height == b.number;
          var k :| 0 <= k < |most| && most[k] == b;
          assert blocks[k] == b && blocks[|blocks| - 1] == last;
        }
      }
    }
  }

  function InShard(h: Shard): Ref -> bool { (r: Ref) => r.shard == h }

  lemma {:induction false} PickNone(s: seq<Ref>, p: Ref -> bool)
    requires forall r :: r in s ==> !p(r)
    ensures Pick(s, p) == []
  {
    if s != [] {
      PickNone(s[..|s| - 1], p);
      assert s[|s| - 1] in s;
    }
  }

  lemma {:induction false} PickShard(perShard: seq<seq<LBlock>>, h: Shard)
    ensures Pick(AllRefs(perShard), InShard(h)) == if h < |perShard| then ShardRefs(h, perShard[h]) else []
  {
    if perShard != [] {
      var most, k := perShard[..|perShard| - 1], |perShard| - 1;
      PickShard(most, h);
      PickAppend(AllRefs(most), ShardRefs(k, perShard[k]), InShard(h));
      forall r | r in ShardRefs(k, perShard[k]) ensures r.shard == k {
        ShardRefsAre(k, perShard[k], r);
      }
      if h == k { PickAll(ShardRefs(k, perShard[k]), InShard(h)); } else { PickNone(ShardRefs(k, perShard[k]), InShard(h)); }
    }
  }

  lemma PickSamples(s: seq<Ref>, t: seq<Ref>, p: Ref -> bool)
    requires multiset(s) == multiset(t)
    ensures multiset(Pick(s, p)) == multiset(Pick(t, p))
  {
    forall x ensures multiset(Pick(s, p))[x] == multiset(Pick(t, p))[x] {
      PickCounts(s, p, x);
      PickCounts(t, p, x);
    }
  }

  lemma {:induction false} PickSorted(s: seq<Ref>, p: Ref -> bool)
    requires Sorted(s)
    ensures Sorted(Pick(s, p))
  {
    if s != [] {
      var most, last := s[..|s| - 1], s[|s| - 1];
      PickSorted(most, p);
      forall i | 0 <= i < |Pick(most, p)| ensures !Earlier(last, Pick(most, p)[i]) {
        PickMembers(most, p, Pick(most, p)[i]);
      }
    }
  }

  lemma LastAgrees(s: seq<Ref>, t: seq<Ref>)
    requires Sorted(s) && StrictlySorted(t) && multiset(s) == multiset(t) && s != [] && t != []
    ensures s[|s| - 1] == t[|t| - 1]
  {
    var x, y := s[|s| - 1], t[|t| - 1];
    assert x in multiset(t) && y in multiset(s);
    var i :| 0 <= i < |s| && s[i] == y;
    var j :| 0 <= j < |t| && t[j] == x;
    assert i < |s| - 1 ==> !Earlier(x, y);
    assert j < |t| - 1 ==> Earlier(x, y);
  }

  lemma DropLast<T>(s: seq<T>)
    requires s != []
    ensures s == s[..|s| - 1] + [s[|s| - 1]]
    ensures multiset(s[..|s| - 1]) == multiset(s) - multiset{s[|s| - 1]}
  {
    assert s == s[..|s| - 1] + [s[|s| - 1]];
  }

  lemma PrefixesSorted(s: seq<Ref>, k: nat)
    requires k <= |s|
    ensures Sorted(s) ==> Sorted(s[..k])
    ensures StrictlySorted(s) ==> StrictlySorted(s[..k])
  {
  }

  /** There is only one way to sort references whose places all differ. */
  lemma {:induction false} SortIsUnique(s: seq<Ref>, t: seq<Ref>)
    requires Sorted(s) && StrictlySorted(t) && multiset(s) == multiset(t)
    ensures s == t
  {
    SizesAgree(s, t);
    if s != [] {
      LastAgrees(s, t);
      PrefixesSorted(s, |s| - 1);
      PrefixesSorted(t, |t| - 1);
      hide Sorted, StrictlySorted;
      DropLast(s);
      DropLast(t);
      SortIsUnique(s[..|s| - 1], t[..|t| - 1]);
    }
  }

  lemma SizesAgree(s: seq<Ref>, t: seq<Ref>)
    requires multiset(s) == multiset(t)
    ensures |s| == |t|
  {
    assert |multiset(s)| == |s| && |multiset(t)| == |t|;
  }

  /** Seen from one shard, the global order is the order in which the shard executed. */
  lemma SortKeepsShardOrder(perShard: seq<seq<LBlock>>, sorted: seq<Ref>, h: Shard)
    requires Sorted(sorted) && multiset(sorted) == multiset(AllRefs(perShard)) && h < |perShard| && InTimeOrder(perShard[h])
    ensures Pick(sorted, InShard(h)) == ShardRefs(h, perShard[h])
  {
    PickSamples(sorted, AllRefs(perShard), InShard(h));
    PickShard(perShard, h);
    PickSorted(sorted, InShard(h));
    ShardRefsSorted(h, perShard[h]);
    SortIsUnique(Pick(sorted, InShard(h)), ShardRefs(h, perShard[h]));
  }

  // ---------------------------------------------------------------- ledger and execution

  /** The locations under static sharding. */
  function StaticLocations(txs: seq<Tx>, n: nat): map<Acct, Shard>
    requires n > 0
  {
    Chain.LocationsInTxs(map[], n, txs)
  }

  /** The state of a shard after its blocks; empty accounts go at the end of each. */
  ghost function ShardState(n: nat, h: Shard, blocks: seq<LBlock>): Option<StateDB>
    requires n > 0
    decreases |blocks|, 0
  {
    if blocks == [] then Some(map[]) else
    match StateInBlock(n, h, blocks[..|blocks| - 1], blocks[|blocks| - 1].txs)
    case None => None
    case Some(db) => Some(Prune(db))
  }

  /** The state within a block, after its first transactions. */
  ghost function StateInBlock(n: nat, h: Shard, blocks: seq<LBlock>, txs: seq<Tx>): Option<StateDB>
    requires n > 0
    decreases |blocks|, 1
  {
    match ShardState(n, h, blocks)
    case None => None
    case Some(db) => TxsResult(db, StaticLocations(txs, n), h, txs)
  }

  /** How often a block has left the account drained, so that it starts anew. */
  ghost function Restarts(n: nat, h: Shard, blocks: seq<LBlock>, a: Acct): nat
    requires n > 0
  {
    if blocks == [] then 0 else
    var most := blocks[..|blocks| - 1];
    var db := StateInBlock(n, h, most, blocks[|blocks| - 1].txs);
    Restarts(n, h, most, a) + if db.Some? && a in Drained(db.value) then 1 else 0
  }

  /** The money that restarts have brought. */
  ghost function RestartMoney(n: nat, h: Shard, blocks: seq<LBlock>, a: Acct): (m: int)
    requires n > 0
    ensures m == 0 <==> Restarts(n, h, blocks, a) == 0
  {
    NORMAL_INIT_BALANCE * Restarts(n, h, blocks, a)
  }

  /** Every transaction is in a shard that executes it. */
  ghost predicate WellPlaced(n: nat, h: Shard, blocks: seq<LBlock>)
    requires n > 0
  {
    forall i :: 0 <= i < |blocks| ==> AllRunHere(blocks[i].txs, StaticLocations(blocks[i].txs, n), h)
  }

  lemma {:induction false} RefsEffect(shard: Shard, b: LBlock, k: nat, a: Acct)
    requires k <= |b.txs|
    ensures SeqSum(BlockRefs(shard, b)[..k], RefEffect(a)) == SeqSum(b.txs[..k], EffectOn(a))
  {
    if k > 0 {
      assert BlockRefs(shard, b)[..k][..k - 1] == BlockRefs(shard, b)[..k - 1] && b.txs[..k][..k - 1] == b.txs[..k - 1];
      RefsEffect(shard, b, k - 1, a);
    }
  }

  /** On chain: the initial balance, the effects so far, and one more initial balance for every restart. */
  lemma {:induction false} ChainBalance(n: nat, h: Shard, blocks: seq<LBlock>, a: Acct)
    requires n > 0 && WellPlaced(n, h, blocks) && ShardState(n, h, blocks).Some?
    ensures Read(ShardState(n, h, blocks).value, a).balance ==
            LedgerBalance(ShardRefs(h, blocks), a) + NORMAL_INIT_BALANCE * Restarts(n, h, blocks, a)
  {
    if blocks != [] {
      var most, b := blocks[..|blocks| - 1], blocks[|blocks| - 1];
      forall i | 0 <= i < |most| ensures AllRunHere(most[i].txs, StaticLocations(most[i].txs, n), h) {
        assert most[i] == blocks[i];
      }
      ChainBalance(n, h, most, a);
      BlockMovesItsEffects(ShardState(n, h, most).value, StaticLocations(b.txs, n), h, b.txs, a);
      RefsEffect(h, b, |b.txs|, a);
      assert BlockRefs(h, b)[..|b.txs|] == BlockRefs(h, b) && b.txs[..|b.txs|] == b.txs;
      SeqSumAppend(ShardRefs(h, most), BlockRefs(h, b), RefEffect(a));
    }
  }

  /** The p-th reference of a shard is transaction j of block m, and comes after m blocks and j transactions. */
  lemma {:induction false} Locate(h: Shard, blocks: seq<LBlock>, p: nat) returns (m: nat, j: nat)
    requires p < |ShardRefs(h, blocks)|
    ensures m < |blocks| && j < |blocks[m].txs|
    ensures ShardRefs(h, blocks)[p] == BlockRefs(h, blocks[m])[j]
    ensures ShardRefs(h, blocks)[..p + 1] == ShardRefs(h, blocks[..m]) + BlockRefs(h, blocks[m])[..j + 1]
  {
    var most, b := blocks[..|blocks| - 1], blocks[|blocks| - 1];
    var before := ShardRefs(h, most);
    if p < |before| {
      m, j := Locate(h, most, p);
      assert most[..m] == blocks[..m];
      assert ShardRefs(h, blocks)[..p + 1] == before[..p + 1];
    } else {
      m, j := |blocks| - 1, p - |before|;
      assert (before + BlockRefs(h, b))[..p + 1] == before + BlockRefs(h, b)[..j + 1];
    }
  }

  /** Only transactions of its home shard affect an account. */
  lemma {:induction false} OnlyHomeCounts(n: nat, perShard: seq<seq<LBlock>>, refs: seq<Ref>, a: Acct)
    requires n > 0 && (forall r :: r in refs ==> r.shard != DefaultAccountLoc(a, n) ==> r.tx.Effect(a) == 0)
    ensures SeqSum(refs, RefEffect(a)) == SeqSum(Pick(refs, InShard(DefaultAccountLoc(a, n))), RefEffect(a))
  {
    if refs != [] {
      var most, r := refs[..|refs| - 1], refs[|refs| - 1];
      var home := InShard(DefaultAccountLoc(a, n));
      assert refs == most + [r];
      assert r in refs && forall x :: x in most ==> x in refs;
      assert home(r) || RefEffect(a)(r) == 0;
      hide *;
      OnlyHomeCounts(n, perShard, most, a);
      PickSnoc(most, r, home);
      SeqSumSnoc(most, r, RefEffect(a));
      SeqSumSnoc(Pick(most, home), r, RefEffect(a));
    }
  }

  lemma {:induction false} AllRefsAre(perShard: seq<seq<LBlock>>, r: Ref)
    requires r in AllRefs(perShard)
    ensures r.shard < |perShard| && r in ShardRefs(r.shard, perShard[r.shard])
  {
    var most, k := perShard[..|perShard| - 1], |perShard| - 1;
    if r in AllRefs(most) { AllRefsAre(most, r); } else { ShardRefsAre(k, perShard[k], r); }
  }

  /** A transaction that affects an account was executed in the account's home shard. */
  lemma EffectsAreHome(n: nat, perShard: seq<seq<LBlock>>, r: Ref, a: Acct)
    requires n > 0 && (forall h :: 0 <= h < |perShard| ==> WellPlaced(n, h, perShard[h])) && r in AllRefs(perShard)
    ensures r.tx.Effect(a) != 0 || r.tx.Debits(a) || r.tx.Credits(a) ==> r.shard == DefaultAccountLoc(a, n)
  {
    AllRefsAre(perShard, r);
    ShardRefsAre(r.shard, perShard[r.shard], r);
    var b :| b in perShard[r.shard] && r in BlockRefs(r.shard, b);
    var i :| 0 <= i < |perShard[r.shard]| && perShard[r.shard][i] == b;
    var j :| 0 <= j < |BlockRefs(r.shard, b)| && BlockRefs(r.shard, b)[j] == r;
    assert AllRunHere(b.txs, StaticLocations(b.txs, n), r.shard);
    assert RunsHere(b.txs[j], StaticLocations(b.txs, n), r.shard);
  }

  /**
   * The ledger refines execution. Right after the transaction at place i of the global order, the ledger's balance of
   * an account it debits or credits is the account's balance in its home shard right after that transaction, less one
   * initial balance for every time an earlier block left the account drained.
   */
  lemma LedgerRefinesExecution(n: nat, perShard: seq<seq<LBlock>>, sorted: seq<Ref>, i: nat, a: Acct) returns (m: nat, j: nat)
    requires n > 0 && |perShard| == n && Sorted(sorted) && multiset(sorted) == multiset(AllRefs(perShard))
    requires forall h :: 0 <= h < n ==> InTimeOrder(perShard[h]) && WellPlaced(n, h, perShard[h]) && ShardState(n, h, perShard[h]).Some?
    requires i < |sorted| && (sorted[i].tx.Debits(a) || sorted[i].tx.Credits(a))
    ensures var h := DefaultAccountLoc(a, n);
            && m < |perShard[h]| && j < |perShard[h][m].txs|
            && sorted[i] == Ref(perShard[h][m].time, h, perShard[h][m].number, j, perShard[h][m].txs[j])
            && var db := StateInBlock(n, h, perShard[h][..m], perShard[h][m].txs[..j + 1]);
               && db.Some?
               && LedgerBalance(sorted[..i + 1], a) == Read(db.value, a).balance - RestartMoney(n, h, perShard[h][..m], a)
               && (LedgerBalance(sorted[..i + 1], a) == Read(db.value, a).balance <==> Restarts(n, h, perShard[h][..m], a) == 0)
  {
    var h := DefaultAccountLoc(a, n);
    var p := HomeBalance(n, perShard, sorted, i, a);
    hide WellPlaced, InTimeOrder, Sorted, LedgerBalance, StateInBlock, ShardState, AllRefs, RestartMoney;
    m, j := Locate(h, perShard[h], p);
    ExecutedUpTo(n, h, perShard[h], m, j, a);
  }

  /** The ledger's balance counts exactly what the home shard has executed so far. */
  lemma HomeBalance(n: nat, perShard: seq<seq<LBlock>>, sorted: seq<Ref>, i: nat, a: Acct) returns (p: nat)
    requires n > 0 && |perShard| == n && Sorted(sorted) && multiset(sorted) == multiset(AllRefs(perShard))
    requires forall h :: 0 <= h < n ==> InTimeOrder(perShard[h]) && WellPlaced(n, h, perShard[h])
    requires i < |sorted| && (sorted[i].tx.Debits(a) || sorted[i].tx.Credits(a))
    ensures var refs := ShardRefs(DefaultAccountLoc(a, n), perShard[DefaultAccountLoc(a, n)]);
            p < |refs| && refs[p] == sorted[i] && LedgerBalance(sorted[..i + 1], a) == LedgerBalance(refs[..p + 1], a)
  {
    var h := DefaultAccountLoc(a, n);
    RefsAreHome(n, perShard, sorted, a);
    SortKeepsShardOrder(perShard, sorted, h);
    assert InShard(h)(sorted[i]) by { assert sorted[i] in sorted; }
    PickUpTo(sorted, i, InShard(h));
    forall r | r in sorted[..i + 1] ensures r.shard != h ==> r.tx.Effect(a) == 0 {
      assert r in sorted;
    }
    OnlyHomeCounts(n, perShard, sorted[..i + 1], a);
    p := |Pick(sorted[..i], InShard(h))|;
  }

  lemma RefsAreHome(n: nat, perShard: seq<seq<LBlock>>, sorted: seq<Ref>, a: Acct)
    requires n > 0 && (forall h :: 0 <= h < |perShard| ==> WellPlaced(n, h, perShard[h])) && multiset(sorted) == multiset(AllRefs(perShard))
    ensures forall r :: r in sorted && (r.tx.Effect(a) != 0 || r.tx.Debits(a) || r.tx.Credits(a)) ==> r.shard == DefaultAccountLoc(a, n)
  {
    forall r | r in sorted && (r.tx.Effect(a) != 0 || r.tx.Debits(a) || r.tx.Credits(a)) ensures r.shard == DefaultAccountLoc(a, n) {
      assert r in multiset(sorted);
      EffectsAreHome(n, perShard, r, a);
    }
  }

  lemma PickUpTo(s: seq<Ref>, i: nat, p: Ref -> bool)
    requires i < |s| && p(s[i])
    ensures var k := |Pick(s[..i], p)|;
            k < |Pick(s, p)| && Pick(s, p)[k] == s[i] && Pick(s[..i + 1], p) == Pick(s, p)[..k + 1]
  {
    assert s == s[..i + 1] + s[i + 1..] && s[..i + 1] == s[..i] + [s[i]];
    PickAppend(s[..i + 1], s[i + 1..], p);
    PickSnoc(s[..i], s[i], p);
  }

  lemma {:induction false} EarlierStates(n: nat, h: Shard, blocks: seq<LBlock>, m: nat)
    requires n > 0 && m <= |blocks| && ShardState(n, h, blocks).Some?
    ensures ShardState(n, h, blocks[..m]).Some?
  {
    if m < |blocks| {
      assert blocks[..|blocks| - 1][..m] == blocks[..m];
      EarlierStates(n, h, blocks[..|blocks| - 1], m);
    } else {
      assert blocks[..m] == blocks;
    }
  }

  /** The balance inside block m, after its transactions up to j. */
  lemma ExecutedUpTo(n: nat, h: Shard, blocks: seq<LBlock>, m: nat, j: nat, a: Acct)
    requires n > 0 && WellPlaced(n, h, blocks) && ShardState(n, h, blocks).Some? && m < |blocks| && j < |blocks[m].txs|
    ensures var db := StateInBlock(n, h, blocks[..m], blocks[m].txs[..j + 1]);
            && db.Some?
            && Read(db.value, a).balance == LedgerBalance(ShardRefs(h, blocks[..m]) + BlockRefs(h, blocks[m])[..j + 1], a)
                                            + RestartMoney(n, h, blocks[..m], a)
  {
    var b, txs := blocks[m], blocks[m].txs[..j + 1];
    EarlierStates(n, h, blocks, m + 1);
    assert blocks[..m + 1][..m] == blocks[..m];
    forall i | 0 <= i < m ensures AllRunHere(blocks[..m][i].txs, StaticLocations(blocks[..m][i].txs, n), h) {
      assert blocks[..m][i] == blocks[i];
    }
    ChainBalance(n, h, blocks[..m], a);
    var start := ShardState(n, h, blocks[..m]).value;
    PrefixRuns(start, n, h, b.txs, j + 1);
    BlockMovesItsEffects(start, StaticLocations(txs, n), h, txs, a);
    RefsEffect(h, b, j + 1, a);
    SeqSumAppend(ShardRefs(h, blocks[..m]), BlockRefs(h, b)[..j + 1], RefEffect(a));
  }

  /** The first transactions of an executed block execute, and the locations of the others do not matter. */
  lemma PrefixRuns(db: StateDB, n: nat, h: Shard, txs: seq<Tx>, k: nat)
    requires n > 0 && k <= |txs| && AllRunHere(txs, StaticLocations(txs, n), h)
    requires TxsResult(db, StaticLocations(txs, n), h, txs).Some?
    ensures AllRunHere(txs[..k], StaticLocations(txs[..k], n), h)
    ensures TxsResult(db, StaticLocations(txs[..k], n), h, txs[..k]).Some?
  {
    if TxsResult(db, StaticLocations(txs, n), h, txs[..k]).None? {
      FailureSticks(db, StaticLocations(txs, n), h, txs, k);
      assert false;
    }
    forall i | 0 <= i < k ensures RunsHere(txs[..k][i], StaticLocations(txs[..k], n), h) {
      assert RunsHere(txs[i], StaticLocations(txs, n), h);
    }
    SameLocations(db, StaticLocations(txs, n), StaticLocations(txs[..k], n), h, txs[..k]);
  }

  lemma {:induction false} SameLocations(db: StateDB, l: map<Acct, Shard>, l': map<Acct, Shard>, h: Shard, txs: seq<Tx>)
    requires Covers(l, txs) && Covers(l', txs)
    requires forall a :: a in l && a in l' ==> l[a] == l'[a]
    ensures TxsResult(db, l, h, txs) == TxsResult(db, l', h, txs)
  {
    if txs != [] { SameLocations(db, l, l', h, txs[..|txs| - 1]); }
  }

  /** A row shows the balance after the whole transaction whenever its two accounts differ. */
  lemma {:induction false} RowShowsBalance(sorted: seq<Ref>, i: nat, a: Acct)
    requires i < |sorted| && (sorted[i].tx.Debits(a) || sorted[i].tx.Credits(a)) && sorted[i].tx.Sender() != sorted[i].tx.Recipient()
    ensures RowsFor(sorted[..i + 1], a) == RowsFor(sorted[..i], a) + [RowOf(sorted[i], LedgerBalance(sorted[..i + 1], a))]
    ensures RowsFor(sorted[..i + 1], a) <= RowsFor(sorted, a)
    decreases |sorted|
  {
    assert sorted[..i + 1][..i] == sorted[..i];
    if i + 1 < |sorted| {
      var most := sorted[..|sorted| - 1];
      assert most[..i + 1] == sorted[..i + 1] && most[..i] == sorted[..i] && most[i] == sorted[i];
      RowShowsBalance(most, i, a);
    } else {
      assert sorted[..i + 1] == sorted;
    }
  }

  /** A row names the block and the transaction it comes from: height and time, both parties, the value, the original hash. */
  lemma RowNames(sorted: seq<Ref>, i: nat, a: Acct) returns (row: Row)
    requires i < |sorted| && (sorted[i].tx.Debits(a) || sorted[i].tx.Credits(a)) && sorted[i].tx.Sender() != sorted[i].tx.Recipient()
    ensures |RowsFor(sorted[..i], a)| < |RowsFor(sorted, a)| && row == RowsFor(sorted, a)[|RowsFor(sorted[..i], a)|]
    ensures var r := sorted[i];
            && row.height == r.height && row.time == r.time
            && row.sender == r.tx.body.sender && row.recipient == r.tx.body.recipient && row.value == r.tx.body.value
            && row.hash == (if r.tx.original == NoHash then HashOf(r.tx.body) else r.tx.original)
            && row.balance == LedgerBalance(sorted[..i + 1], a)
  {
    RowShowsBalance(sorted, i, a);
    row := RowsFor(sorted[..i + 1], a)[|RowsFor(sorted[..i], a)|];
  }

  /** An account has one row for each time it is debited and one for each time it is credited, and no others. */
  lemma {:induction false} RowCount(refs: seq<Ref>, a: Acct)
    ensures |RowsFor(refs, a)| == |Pick(refs, (r: Ref) => r.tx.stage != Relay2 && r.tx.body.sender == a)|
                                + |Pick(refs, (r: Ref) => r.tx.stage != Relay1 && r.tx.body.recipient == a)|
  {
    if refs != [] { RowCount(refs[..|refs| - 1], a); }
  }

  /**
   * A row and the chain: under static locations the row of the i-th transaction of the global order gives height, time,
   * parties and value of the transaction as its home shard executed it, and the balance the account then had there,
   * less one initial balance for every restart before.
   */
  lemma RowIsExecution(n: nat, perShard: seq<seq<LBlock>>, sorted: seq<Ref>, i: nat, a: Acct) returns (row: Row, m: nat, j: nat)
    requires n > 0 && |perShard| == n && Sorted(sorted) && multiset(sorted) == multiset(AllRefs(perShard))
    requires forall h :: 0 <= h < n ==> InTimeOrder(perShard[h]) && WellPlaced(n, h, perShard[h]) && ShardState(n, h, perShard[h]).Some?
    requires i < |sorted| && (sorted[i].tx.Debits(a) || sorted[i].tx.Credits(a)) && sorted[i].tx.Sender() != sorted[i].tx.Recipient()
    ensures |RowsFor(sorted[..i], a)| < |RowsFor(sorted, a)| && row == RowsFor(sorted, a)[|RowsFor(sorted[..i], a)|]
    ensures var h := DefaultAccountLoc(a, n);
            && m < |perShard[h]| && j < |perShard[h][m].txs|
            && var b, tx := perShard[h][m], perShard[h][m].txs[j];
               && row.height == b.number && row.time == b.time
               && row.sender == tx.body.sender && row.recipient == tx.body.recipient && row.value == tx.body.value
               && var db := StateInBlock(n, h, perShard[h][..m], b.txs[..j + 1]);
                  db.Some? && row.balance == Read(db.value, a).balance - RestartMoney(n, h, perShard[h][..m], a)
  {
    row := RowNames(sorted, i, a);
    hide WellPlaced, InTimeOrder, Sorted, LedgerBalance, StateInBlock, ShardState, AllRefs, RestartMoney, RowsFor;
    m, j := LedgerRefinesExecution(n, perShard, sorted, i, a);
  }
}
