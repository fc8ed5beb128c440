/** The per-shard metadata of an account-migration epoch. */
module Migration {
  import opened Prelude
  import opened Accounts
  import opened Chain

  type States = map<Acct, AcctState>

  datatype MigrationMsg = MigrationMsg(src: int, dest: int, epoch: int, states: States)

  /** The value of AccMigrateMetadata. */
  datatype Meta = Meta(
    epoch: int,
    modified: map<Acct, Shard>,
    collected: map<int, States>,
    ready: bool,
    early: map<int, seq<MigrationMsg>>)

  function Early(m: Meta, epoch: int): seq<MigrationMsg> {
    if epoch in m.early then m.early[epoch] else []
  }

  function InitialMeta(): Meta { Meta(0, map[], map[], false, map[]) }

  function ResetMeta(m: Meta): Meta {
    m.(collected := map[], modified := map[], ready := false, early := m.early[m.epoch := []])
  }

  /** Accepted: addressed to this shard, from a shard that exists, not out of date. */
  predicate Accepts(m: Meta, shardNum: nat, self: Shard, msg: MigrationMsg) {
    msg.dest == self && 0 <= msg.src < shardNum && msg.epoch >= m.epoch
  }

  /** Collecting one message: rejected, buffered for its own epoch, or recorded. */
  function Collect(m: Meta, shardNum: nat, self: Shard, msg: MigrationMsg): Meta {
    if !Accepts(m, shardNum, self, msg) then m
    else if msg.epoch > m.epoch then m.(early := m.early[msg.epoch := Early(m, msg.epoch) + [msg]])
    else m.(collected := m.collected[msg.src := msg.states])
  }

  function CollectAll(m: Meta, shardNum: nat, self: Shard, msgs: seq<MigrationMsg>): Meta {
    if msgs == [] then m else
    Collect(CollectAll(m, shardNum, self, msgs[..|msgs| - 1]), shardNum, self, msgs[|msgs| - 1])
  }

  /** A repartition start for the next epoch: enter it and replay what arrived early. */
  function StartEpoch(m: Meta, shardNum: nat, self: Shard, epoch: int, modified: map<Acct, Shard>): Option<Meta> {
    if epoch != m.epoch + 1 then None else
    var entered := m.(epoch := epoch, modified := modified, ready := true);
    var replayed := CollectAll(entered, shardNum, self, Early(entered, epoch));
    Some(replayed.(early := replayed.early[epoch := []]))
  }

  /** moved merges everything collected; an account nobody sent gets a fresh state. */
  ghost predicate IsMerge(m: Meta, moved: map<Acct, Migrated>) {
    && moved.Keys == m.modified.Keys
    && forall a :: a in moved ==> moved[a].location == m.modified[a] && IsMergedState(m.collected, a, moved[a].state)
  }

  ghost predicate IsMergedState(collected: map<int, States>, a: Acct, st: AcctState) {
    || (exists src :: src in collected && a in collected[src] && st == collected[src][a])
    || ((forall src :: src in collected ==> a !in collected[src]) && st == NewState())
  }

  /** Two shards never send the same account, so the merge does not depend on its order. */
  lemma MergeIsUnique(m: Meta, x: map<Acct, Migrated>, y: map<Acct, Migrated>)
    requires IsMerge(m, x) && IsMerge(m, y)
    requires forall s, t, a :: s in m.collected && t in m.collected && a in m.collected[s] && a in m.collected[t] ==>
               m.collected[s][a] == m.collected[t][a]
    ensures x == y
  {
    forall a | a in x ensures x[a] == y[a] {
      assert IsMergedState(m.collected, a, x[a].state) && IsMergedState(m.collected, a, y[a].state);
    }
  }

  /** An account that nobody sent enters the block as one that was never touched. */
  lemma UnsentIsFresh(m: Meta, moved: map<Acct, Migrated>, a: Acct)
    requires IsMerge(m, moved) && a in moved && forall src :: src in m.collected ==> a !in m.collected[src]
    ensures moved[a].state == Read(map[], a) && moved[a].state.balance == NORMAL_INIT_BALANCE && moved[a].state.nonce == 0
  {
  }

  /** All collected states in one map, whatever order the map iteration takes. */
  method MergeCollected(collected: map<int, States>) returns (merged: States)
    ensures forall a :: a in merged ==> IsMergedState(collected, a, merged[a])
    ensures forall src, a :: src in collected && a in collected[src] ==> a in merged
  {
    merged := map[];
    var todo := collected.Keys;
    while todo != {}
      invariant todo <= collected.Keys
      invariant forall a :: a in merged ==> IsMergedState(collected, a, merged[a])
      invariant forall src: int :: src in collected && src !in todo ==> collected[src].Keys <= merged.Keys
      decreases |todo|
    {
      ghost var member := SomeMember(todo);
      var src :| src in todo;
      merged := merged + collected[src];
      todo := todo - {src};
    }
  }

  class AccMigrateMetadata {
    var Epoch: int
    var CurModifiedMap: map<Acct, Shard>
    var MigratedAccountStates: map<int, States>
    var MigrationReady: bool
    var unhandledStateMsg: map<int, seq<MigrationMsg>>
    const shardNum: nat
    const shardID: Shard

    constructor (shardNum: nat, shardID: Shard)
      ensures View() == InitialMeta()
      ensures this.shardNum == shardNum && this.shardID == shardID
    {
      Epoch, CurModifiedMap, MigratedAccountStates, MigrationReady := 0, map[], map[], false;
      unhandledStateMsg := map[];
      this.shardNum, this.shardID := shardNum, shardID;
    }

    ghost function View(): Meta
      reads this
    {
      Meta(Epoch, CurModifiedMap, MigratedAccountStates, MigrationReady, unhandledStateMsg)
    }

    method MigrationStatusReset()
      modifies this
      ensures View() == ResetMeta(old(View()))
    {
      MigratedAccountStates := map[];
      CurModifiedMap := map[];
      MigrationReady := false;
      unhandledStateMsg := unhandledStateMsg[Epoch := []];
    }

    method UpdateByRepartitionStartMsg(epoch: int, modified: map<Acct, Shard>) returns (ok: bool)
      modifies this
      ensures ok <==> StartEpoch(old(View()), shardNum, shardID, epoch, modified).Some?
      ensures View() == if ok then StartEpoch(old(View()), shardNum, shardID, epoch, modified).value else old(View())
    {
      if epoch != Epoch + 1 { return false; }
      Epoch := epoch;
      CurModifiedMap := modified;
      MigrationReady := true;
      ghost var entered := View();
      var msgs := if Epoch in unhandledStateMsg then unhandledStateMsg[Epoch] else [];
      for i := 0 to |msgs|
        invariant View() == CollectAll(entered, shardNum, shardID, msgs[..i])
      {
        assert msgs[..i + 1][..i] == msgs[..i];
        var _ := CollectStatesByMsg(msgs[i]);
      }
      assert msgs[..|msgs|] == msgs;
      unhandledStateMsg := unhandledStateMsg[epoch := []];
      return true;
    }

    method CollectStatesByMsg(msg: MigrationMsg) returns (ok: bool)
      modifies this
      ensures ok <==> Accepts(old(View()), shardNum, shardID, msg)
      ensures View() == Collect(old(View()), shardNum, shardID, msg)
    {
      if msg.dest != shardID { return false; }
      if msg.src >= shardNum || msg.src < 0 { return false; }
      if msg.epoch < Epoch { return false; }
      if msg.epoch > Epoch {
        var known := if msg.epoch in unhandledStateMsg then unhandledStateMsg[msg.epoch] else [];
        unhandledStateMsg := unhandledStateMsg[msg.epoch := known + [msg]];
        return true;
      }
      MigratedAccountStates := MigratedAccountStates[msg.src := msg.states];
      return true;
    }

    /** The merge is refused until every shard has been heard. */
    method GetMigratedAddrStates() returns (r: Option<map<Acct, Migrated>>)
      ensures r.Some? <==> |MigratedAccountStates| == shardNum
      ensures r.Some? ==> IsMerge(View(), r.value)
    {
      if |MigratedAccountStates| != shardNum { return None; }
      var accountMigratedIn := MergeCollected(MigratedAccountStates);
      var moved: map<Acct, Migrated> := map[];
      var accs := CurModifiedMap.Keys;
      while accs != {}
        invariant accs <= CurModifiedMap.Keys
        invariant moved.Keys == CurModifiedMap.Keys - accs
        invariant forall a :: a in moved ==> moved[a].location == CurModifiedMap[a] && IsMergedState(MigratedAccountStates, a, moved[a].state)
        decreases |accs|
      {
        var acc :| acc in accs;
        var st := if acc in accountMigratedIn then accountMigratedIn[acc] else NewState();
        assert IsMergedState(MigratedAccountStates, acc, st);
        moved := moved[acc := Migrated(st, CurModifiedMap[acc])];
        accs := accs - {acc};
      }
      return Some(moved);
    }
  }

  // ----------------------------------------------------------- sending accounts out

  /** What a shard sends to dest: the current states of its accounts that move there. */
  function OutMsg(s: State, shardNum: nat, self: Shard, epoch: int, modified: map<Acct, Shard>, dest: Shard): MigrationMsg
    requires shardNum > 0
  {
    MigrationMsg(self, dest, epoch,
      map a | a in modified && LocOf(s.loc, a, shardNum) == self && modified[a] == dest :: Read(s.db, a))
  }

  lemma OutOneMore(s: State, n: nat, self: Shard, epoch: int, part: map<Acct, Shard>, a: Acct, to: Shard, d: Shard)
    requires n > 0 && a !in part
    ensures OutMsg(s, n, self, epoch, part[a := to], d).states ==
            if LocOf(s.loc, a, n) == self && to == d then OutMsg(s, n, self, epoch, part, d).states[a := Read(s.db, a)]
            else OutMsg(s, n, self, epoch, part, d).states
  {
    var l, r := OutMsg(s, n, self, epoch, part[a := to], d).states, OutMsg(s, n, self, epoch, part, d).states;
    forall x | x in l && x != a ensures x in r && l[x] == r[x] {
    }
    forall x | x in r ensures x in l && l[x] == r[x] {
    }
  }

  /** One message for every shard, this one included. */
  method MigrateAccounts(chain: Chain, amm: AccMigrateMetadata) returns (msgs: seq<MigrationMsg>)
    requires chain.shardNum > 0
    requires forall a :: a in amm.CurModifiedMap ==> amm.CurModifiedMap[a] < chain.shardNum
    ensures |msgs| == chain.shardNum
    ensures forall d :: 0 <= d < |msgs| ==>
      msgs[d] == OutMsg(chain.state, chain.shardNum, chain.shardID, amm.Epoch, amm.CurModifiedMap, d)
  {
    var n, self, modified, s := chain.shardNum, chain.shardID, amm.CurModifiedMap, chain.state;
    var out := new States[n](_ => map[]);
    var todo := modified.Keys;
    while todo != {}
      invariant todo <= modified.Keys
      invariant forall d :: 0 <= d < n ==>
        out[d] == OutMsg(s, n, self, amm.Epoch, modified - todo, d).states
      decreases |todo|
    {
      var acc :| acc in todo;
      assert modified - (todo - {acc}) == (modified - todo)[acc := modified[acc]];
      forall d | 0 <= d < n {
        OutOneMore(s, n, self, amm.Epoch, modified - todo, acc, modified[acc], d);
      }
      if LocOf(s.loc, acc, n) == self {
        out[modified[acc]] := out[modified[acc]][acc := Read(s.db, acc)];
      }
      todo := todo - {acc};
    }
    assert modified - {} == modified;
    var epoch := amm.Epoch;
    msgs := seq(n, d requires 0 <= d < n && n == out.Length reads out => MigrationMsg(self, d, epoch, out[d]));
  }
}
