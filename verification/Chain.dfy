/** One shard's chain: headers and blocks by hash, the state database and the location trie. */
module Chain {
  import opened Prelude
  import opened Accounts
  import opened Transactions
  import opened Execute

  const BLOCKS_FETCH_LIMIT := 100

  /** An account state on its way, with the location it is to have. */
  datatype Migrated = Migrated(state: AcctState, location: Shard)

  /** What a block carries; the roots in its header commit to it. */
  datatype Content =
    | TxContent(txs: seq<Tx>)
    | MigrationContent(moved: map<Acct, Migrated>)

  datatype Header = Header(parent: BlockHash, number: nat, content: Content)
  datatype BlockHash = ZeroHash | HashOfHeader(header: Header)
  datatype Block = Block(header: Header)

  datatype State = State(db: StateDB, loc: map<Acct, Shard>)

  // ------------------------------------------------------------------ locations

  function AccountsOf(txs: seq<Tx>): (r: set<Acct>)
    ensures forall i :: 0 <= i < |txs| ==> txs[i].Sender() in r && txs[i].Recipient() in r
  {
    if txs == [] then {} else
    AccountsOf(txs[..|txs| - 1]) + {txs[|txs| - 1].Sender(), txs[|txs| - 1].Recipient()}
  }

  function LocationsInTxs(loc: map<Acct, Shard>, shardNum: nat, txs: seq<Tx>): (r: map<Acct, Shard>)
    requires shardNum > 0
    ensures Covers(r, txs)
    ensures forall a :: a in r ==> r[a] == LocOf(loc, a, shardNum)
  {
    map a | a in AccountsOf(txs) :: LocOf(loc, a, shardNum)
  }

  // ---------------------------------------------------------- applying a block

  function Install(db: StateDB, shard: Shard, moved: map<Acct, Migrated>): StateDB {
    map a | a in db.Keys + moved.Keys && (a in db || moved[a].location == shard) ::
      if a in moved && moved[a].location == shard then moved[a].state else db[a]
  }

  function Relocate(loc: map<Acct, Shard>, moved: map<Acct, Migrated>): map<Acct, Shard> {
    loc + map a | a in moved :: moved[a].location
  }

  /** The state after a block; None when a transaction in it fails. */
  ghost function Applied(s: State, shardNum: nat, shard: Shard, content: Content): Option<State>
    requires shardNum > 0
  {
    match content
    case TxContent(txs) =>
      (match TxsResult(s.db, LocationsInTxs(s.loc, shardNum, txs), shard, txs)
       case None => None
       case Some(db) => Some(State(Prune(db), s.loc)))
    case MigrationContent(moved) =>
      Some(State(Prune(Install(s.db, shard, moved)), Relocate(s.loc, moved)))
  }

  // -------------------------------------------------------------------- history

  predicate Follows(next: Header, header: Header) {
    next.parent == HashOfHeader(header) && next.number == header.number + 1
  }

  /** The state after a whole list of blocks. */
  ghost function Replayed(s: State, shardNum: nat, shard: Shard, blocks: seq<Block>): Option<State>
    requires shardNum > 0
  {
    if blocks == [] then Some(s) else
    match Replayed(s, shardNum, shard, blocks[..|blocks| - 1])
    case None => None
    case Some(before) => Applied(before, shardNum, shard, blocks[|blocks| - 1].header.content)
  }

  lemma {:induction false} ReplayedAppend(s: State, shardNum: nat, shard: Shard, a: seq<Block>, b: seq<Block>)
    requires shardNum > 0
    ensures Replayed(s, shardNum, shard, a + b) ==
            match Replayed(s, shardNum, shard, a) case None => None case Some(mid) => Replayed(mid, shardNum, shard, b)
  {
    if b == [] {
      assert a + b == a;
    } else {
      assert (a + b)[..|a + b| - 1] == a + b[..|b| - 1];
      ReplayedAppend(s, shardNum, shard, a, b[..|b| - 1]);
    }
  }

  /** One node's copy of the chain: every block it has added, and the state they lead to. */
  datatype Replica = Replica(history: seq<Block>, state: State) {
    /** The number of the block added last, whatever came before it. */
    function Height(): int {
      if history == [] then 0 else history[|history| - 1].header.number
    }
  }

  const EMPTY_STATE := State(map[], map[])
  const GENESIS := Block(Header(ZeroHash, 1, TxContent([])))
  const NEW_REPLICA := Replica([GENESIS], EMPTY_STATE)

  /** Neither height nor parent of an added block is checked; only its transactions must execute. */
  ghost function Extended(r: Replica, shardNum: nat, shard: Shard, b: Block): Option<Replica>
    requires shardNum > 0
  {
    match Applied(r.state, shardNum, shard, b.header.content)
    case None => None
    case Some(state) => Some(Replica(r.history + [b], state))
  }

  /** Blocks in order up to the first that fails, and whether none did. */
  ghost function ExtendedAll(r: Replica, shardNum: nat, shard: Shard, blocks: seq<Block>): (Replica, bool)
    requires shardNum > 0
  {
    if blocks == [] then (r, true) else
    var (most, ok) := ExtendedAll(r, shardNum, shard, blocks[..|blocks| - 1]);
    if !ok then (most, false) else
    match Extended(most, shardNum, shard, blocks[|blocks| - 1])
    case None => (most, false)
    case Some(all) => (all, true)
  }

  /** All of the blocks are added exactly when they replay from the present state. */
  lemma {:induction false} ExtendedReplays(r: Replica, shardNum: nat, shard: Shard, blocks: seq<Block>)
    requires shardNum > 0
    ensures var (all, ok) := ExtendedAll(r, shardNum, shard, blocks);
            && (ok <==> Replayed(r.state, shardNum, shard, blocks).Some?)
            && (ok ==> all == Replica(r.history + blocks, Replayed(r.state, shardNum, shard, blocks).value))
            && (!ok ==> exists n :: 0 <= n < |blocks| && all.history == r.history + blocks[..n])
  {
    if blocks == [] {
      assert r.history + [] == r.history;
    } else {
      var most := blocks[..|blocks| - 1];
      ExtendedReplays(r, shardNum, shard, most);
      assert blocks == most + [blocks[|blocks| - 1]];
      assert r.history + most + [blocks[|blocks| - 1]] == r.history + blocks;
      var (all, ok) := ExtendedAll(r, shardNum, shard, most);
      if !ok {
        var n :| 0 <= n < |most| && all.history == r.history + most[..n];
        assert most[..n] == blocks[..n];
      } else {
        assert most == blocks[..|blocks| - 1];
      }
    }
  }

  /** The blocks that an answer to a request from the given height on consists of. */
  function BlocksFrom(history: seq<Block>, start: int): seq<Block>
    requires start > 0
  {
    if start <= |history| then history[start - 1..] else []
  }

  /** A block that fails stops every longer list that has it at the same place. */
  lemma {:induction false} ReplayStops(s: State, shardNum: nat, shard: Shard, blocks: seq<Block>, n: nat)
    requires shardNum > 0 && n <= |blocks| && Replayed(s, shardNum, shard, blocks[..n]).None?
    ensures Replayed(s, shardNum, shard, blocks).None?
  {
    if n == |blocks| {
      assert blocks[..n] == blocks;
    } else {
      assert blocks[..|blocks| - 1][..n] == blocks[..n];
      ReplayStops(s, shardNum, shard, blocks[..|blocks| - 1], n);
    }
  }

  /** A chain of consecutive heights from 1, each block the parent of the next, all of them stored. */
  ghost predicate IsChain(history: seq<Block>, store: map<BlockHash, Block>) {
    && |history| >= 1
    && (forall i :: 0 <= i < |history| ==>
          history[i].header.number == i + 1 && HashOfHeader(history[i].header) in store && store[HashOfHeader(history[i].header)] == history[i])
    && (forall i :: 1 <= i < |history| ==> history[i].header.parent == HashOfHeader(history[i - 1].header))
  }

  class Chain {
    var store: map<BlockHash, Block>
    var curHeader: Header
    var state: State
    var epochID: int
    const shardID: Shard
    const shardNum: nat
    ghost var history: seq<Block>

    /** The history is a chain that ends in the current header, and the state is what it leads to. */
    ghost predicate Valid()
      reads this
    {
      && shardNum > 0
      && IsChain(history, store)
      && curHeader == history[|history| - 1].header
      && Replayed(EMPTY_STATE, shardNum, shardID, history) == Some(state)
    }

    /** The genesis block is generated over the zero header, so its height is 1. */
    constructor (shardID: Shard, shardNum: nat)
      requires shardNum > 0
      ensures Valid() && curHeader.number == 1 && epochID == 0 && |history| == 1
      ensures state == EMPTY_STATE
      ensures this.shardID == shardID && this.shardNum == shardNum
    {
      this.shardID, this.shardNum := shardID, shardNum;
      var genesis := Header(ZeroHash, 1, TxContent([]));
      store := map[HashOfHeader(genesis) := Block(genesis)];
      curHeader := genesis;
      state := EMPTY_STATE;
      epochID := 0;
      history := [Block(genesis)];
      new;
      GenesisState(history, shardNum, shardID);
    }

    method GetAccountLocationsInTxs(txs: seq<Tx>) returns (r: map<Acct, Shard>)
      requires shardNum > 0
      ensures r == LocationsInTxs(state.loc, shardNum, txs)
    {
      r := map[];
      for i := 0 to |txs|
        invariant r == LocationsInTxs(state.loc, shardNum, txs[..i])
      {
        assert txs[..i + 1][..i] == txs[..i];
        r := r[txs[i].Sender() := LocOf(state.loc, txs[i].Sender(), shardNum)];
        r := r[txs[i].Recipient() := LocOf(state.loc, txs[i].Recipient(), shardNum)];
      }
      assert txs[..|txs|] == txs;
    }

    /** The state changes of a block; the chain itself is left alone. */
    method CalcStateModification(b: Block) returns (r: Option<State>)
      requires shardNum > 0
      ensures r == Applied(state, shardNum, shardID, b.header.content)
    {
      match b.header.content {
        case TxContent(txs) =>
          var locations := GetAccountLocationsInTxs(txs);
          var v := new Executor(state.db);
          var ok := v.ExecuteAll(locations, shardID, txs);
          if !ok { return None; }
          var root := v.Commit();
          r := Some(State(root, state.loc));
        case MigrationContent(moved) =>
          var v := new Executor(state.db);
          var loc := InstallAll(v, moved);
          var root := v.Commit();
          r := Some(State(root, loc));
      }
    }

    /** Only the accounts that come to this shard get a state here; every moved account gets its location. */
    method InstallAll(v: Executor, moved: map<Acct, Migrated>) returns (loc: map<Acct, Shard>)
      modifies v
      ensures v.db == Install(old(v.db), shardID, moved)
      ensures loc == Relocate(state.loc, moved)
    {
      loc := state.loc;
      var todo := moved.Keys;
      NothingMoved(v.db, loc, shardID, moved - todo);
      while todo != {}
        invariant todo <= moved.Keys
        invariant v.db == Install(old(v.db), shardID, moved - todo)
        invariant loc == Relocate(state.loc, moved - todo)
        decreases todo
      {
        var a :| a in todo;
        OneMoreMoved(old(v.db), state.loc, shardID, moved, todo, a);
        if moved[a].location == shardID {
          v.db := v.db[a := moved[a].state];
        }
        loc := loc[a := moved[a].location];
        todo := todo - {a};
      }
      assert moved - {} == moved;
    }

    /** A proposal on top of the current header; an overdraft in the preview yields none. */
    method GenerateBlock(content: Content) returns (r: Option<Block>)
      requires Valid()
      ensures r.Some? <==> Applied(state, shardNum, shardID, content).Some?
      ensures r.Some? ==> r.value.header == Header(HashOfHeader(curHeader), curHeader.number + 1, content)
    {
      var b := Block(Header(HashOfHeader(curHeader), curHeader.number + 1, content));
      var preview := CalcStateModification(b);
      r := if preview.Some? then Some(b) else None;
    }

    /** AddBlock checks neither the height nor the parent of the block. */
    method AddBlock(b: Block) returns (ok: bool)
      requires shardNum > 0
      modifies this
      ensures ok <==> Applied(old(state), shardNum, shardID, b.header.content).Some?
      ensures ok ==> state == Applied(old(state), shardNum, shardID, b.header.content).value
      ensures ok ==> curHeader == b.header && store == old(store)[HashOfHeader(b.header) := b] && history == old(history) + [b]
      ensures !ok ==> state == old(state) && curHeader == old(curHeader) && store == old(store) && history == old(history)
      ensures epochID == old(epochID)
      ensures old(Valid()) && (ok ==> Follows(b.header, old(curHeader))) ==> Valid()
    {
      var next := CalcStateModification(b);
      if next.None? { return false; }
      ghost var before := history;
      state := next.value;
      store := store[HashOfHeader(b.header) := b];
      curHeader := b.header;
      history := before + [b];
      assert history[..|history| - 1] == before;
      return true;
    }

    method UpdateEpoch(epoch: int)
      modifies this`epochID
      ensures epochID == epoch
    {
      epochID := epoch;
    }

    /** The blocks from beginHeight on, read backwards from the current header. */
    method GetBlocksAfterHeight(beginHeight: int) returns (r: Option<seq<Block>>)
      requires Valid()
      ensures r.None? <==> beginHeight <= 0 || |history| - beginHeight + 1 > BLOCKS_FETCH_LIMIT
      ensures r.Some? ==> r.value == if beginHeight <= |history| then history[beginHeight - 1..] else []
    {
      if beginHeight <= 0 { return None; }
      var cnt := curHeader.number - beginHeight + 1;
      if cnt > BLOCKS_FETCH_LIMIT { return None; }
      if cnt < 0 { cnt := 0; }
      var hash := HashOfHeader(curHeader);
      var placeholder := Block(curHeader);
      var blocks: seq<Block> := seq(cnt, _ => placeholder);
      var i := cnt - 1;
      while i >= 0
        invariant -1 <= i < cnt
        invariant |blocks| == cnt
        invariant i >= 0 ==> hash == HashOfHeader(history[beginHeight - 1 + i].header)
        invariant forall j :: i < j < cnt ==> blocks[j] == history[beginHeight - 1 + j]
      {
        var b := store[hash];
        blocks := blocks[i := b];
        hash := b.header.parent;
        i := i - 1;
      }
      return Some(blocks);
    }
  }

  lemma GenesisState(history: seq<Block>, shardNum: nat, shard: Shard)
    requires shardNum > 0 && |history| == 1 && history[0].header.content == TxContent([])
    ensures Replayed(EMPTY_STATE, shardNum, shard, history) == Some(EMPTY_STATE)
  {
    assert history[..0] == [];
    assert Prune(map[]) == map[];
  }

  lemma InstallOneMore(db: StateDB, shard: Shard, before: map<Acct, Migrated>, a: Acct, m: Migrated)
    requires a !in before
    ensures Install(db, shard, before[a := m]) ==
            if m.location == shard then Install(db, shard, before)[a := m.state] else Install(db, shard, before)
  {
    var l := Install(db, shard, before[a := m]);
    var r := if m.location == shard then Install(db, shard, before)[a := m.state] else Install(db, shard, before);
    forall x ensures x in l <==> x in r {
    }
    forall x | x in l ensures l[x] == r[x] {
    }
  }

  lemma RelocateOneMore(loc: map<Acct, Shard>, before: map<Acct, Migrated>, a: Acct, m: Migrated)
    ensures Relocate(loc, before[a := m]) == Relocate(loc, before)[a := m.location]
  {
  }

  lemma NothingMoved(db: StateDB, loc: map<Acct, Shard>, shard: Shard, none: map<Acct, Migrated>)
    requires none.Keys == {}
    ensures Install(db, shard, none) == db && Relocate(loc, none) == loc
  {
  }

  lemma OneMoreMoved(db: StateDB, loc: map<Acct, Shard>, shard: Shard, moved: map<Acct, Migrated>, todo: set<Acct>, a: Acct)
    requires a in todo && todo <= moved.Keys
    ensures Install(db, shard, moved - (todo - {a})) ==
            (if moved[a].location == shard then Install(db, shard, moved - todo)[a := moved[a].state]
             else Install(db, shard, moved - todo))
    ensures Relocate(loc, moved - (todo - {a})) == Relocate(loc, moved - todo)[a := moved[a].location]
  {
    assert moved - (todo - {a}) == (moved - todo)[a := moved[a]];
    InstallOneMore(db, shard, moved - todo, a, moved[a]);
    RelocateOneMore(loc, moved - todo, a, moved[a]);
  }
}
