/** The supervisor of the dynamic-sharding protocol as an object. */
module ClpaRelay {
  import opened Prelude
  import opened Accounts
  import opened Transactions
  import opened Chain
  import opened RelayOps
  import opened Sharding
  import opened Graph
  import opened Clpa
  import opened ClpaRun
  import opened ClpaState
  import opened DynamicShardOp

  /** Transactions are filed under the shard of their sender; a shard out of range drops the transaction. */
  method PackShardTxs(txs: seq<Tx>, shardNumber: nat, location: Tx -> Option<Shard>) returns (shardTxs: seq<seq<Tx>>)
    ensures shardTxs == ByShard(txs, location, shardNumber)
  {
    shardTxs := seq(shardNumber, _ => []);
    assert shardTxs == ByShard(txs[..0], location, shardNumber);
    for i := 0 to |txs|
      invariant shardTxs == ByShard(txs[..i], location, shardNumber)
    {
      assert txs[..i + 1] == txs[..i] + [txs[i]];
      ByShardSnoc(txs[..i], txs[i], location, shardNumber);
      var shardID := location(txs[i]);
      if shardID.None? || shardID.value >= shardNumber { continue; }
      shardTxs := shardTxs[shardID.value := shardTxs[shardID.value] + [txs[i]]];
    }
    assert txs[..|txs|] == txs;
  }

  function EdgeOf(tx: Tx): Edge { Edge(tx.Sender(), tx.Recipient()) }

  lemma {:induction false} AccountsOfAppend(a: seq<Tx>, b: seq<Tx>)
    ensures AccountsOf(a + b) == AccountsOf(a) + AccountsOf(b)
  {
    if b == [] {
      assert a + b == a;
    } else {
      assert (a + b)[..|a + b| - 1] == a + b[..|b| - 1];
      AccountsOfAppend(a, b[..|b| - 1]);
    }
  }

  function EdgesOf(txs: seq<Tx>): seq<Edge> {
    if txs == [] then [] else EdgesOf(txs[..|txs| - 1]) + [EdgeOf(txs[|txs| - 1])]
  }

  lemma {:induction false} EdgesOfAppend(a: seq<Tx>, b: seq<Tx>)
    ensures EdgesOf(a + b) == EdgesOf(a) + EdgesOf(b)
  {
    if b == [] {
      assert a + b == a;
    } else {
      assert (a + b)[..|a + b| - 1] == a + b[..|b| - 1];
      EdgesOfAppend(a, b[..|b| - 1]);
    }
  }

  lemma WithOneMoreEdge(part: map<Acct, Shard>, n: nat, accts: set<Acct>, u: Acct, v: Acct)
    requires n > 0
    ensures map[u := DefaultAccountLoc(u, n), v := DefaultAccountLoc(v, n)] + WithVertices(part, n, accts)
            == WithVertices(part, n, accts + {u, v})
  {
    var l, r := map[u := DefaultAccountLoc(u, n), v := DefaultAccountLoc(v, n)] + WithVertices(part, n, accts), WithVertices(part, n, accts + {u, v});
    assert l.Keys == r.Keys;
    assert forall a :: a in l ==> l[a] == r[a];
  }

  lemma WithMoreVertices(part: map<Acct, Shard>, n: nat, a: set<Acct>, b: set<Acct>)
    requires n > 0
    ensures WithVertices(WithVertices(part, n, a), n, b) == WithVertices(part, n, a + b)
  {
    var l, r := WithVertices(WithVertices(part, n, a), n, b), WithVertices(part, n, a + b);
    assert l.Keys == r.Keys;
    assert forall x :: x in l ==> l[x] == r[x];
  }

  /** Empty reports are counted once nothing is left to inject, and any other one starts the count again. */
  function StopCount(count: int, unsent: int, txs: nat): int {
    if unsent > 0 then count else if txs == 0 then count + 1 else 0
  }

  function StopCountAll(unsent: int, sizes: seq<nat>): int {
    if sizes == [] then 0 else StopCount(StopCountAll(unsent, sizes[..|sizes| - 1]), unsent, sizes[|sizes| - 1])
  }

  /** With everything injected, the count is the length of the latest run of empty reports. */
  lemma {:induction false} StopCountIsTail(sizes: seq<nat>)
    ensures var k := StopCountAll(0, sizes);
            && 0 <= k <= |sizes|
            && (forall i :: |sizes| - k <= i < |sizes| ==> sizes[i] == 0)
            && (k < |sizes| ==> sizes[|sizes| - k - 1] != 0)
  {
    if sizes != [] { StopCountIsTail(sizes[..|sizes| - 1]); }
  }

  class CLPARelayCommittee {
    var supervisorEpoch: int
    var epochSynced: bool
    var unsentTxNum: int
    var stopCnt: int
    const shardEpoch: array<int>
    const state: CLPAState
    const cfg: Cfg

    constructor (cfg: Cfg, wp: real, maxIterations: nat, txNumber: int)
      requires cfg.shards > 0
      ensures Valid() && this.cfg == cfg && View() == Init(cfg).sup && unsentTxNum == txNumber && stopCnt == 0
    {
      supervisorEpoch, epochSynced, unsentTxNum, stopCnt := 0, false, txNumber, 0;
      shardEpoch := new int[cfg.shards](_ => 0);
      state := new CLPAState(wp, maxIterations, cfg.shards);
      this.cfg := cfg;
      new;
      assert shardEpoch[..] == seq(cfg.shards, _ => 0);
    }

    ghost predicate Valid()
      reads this, shardEpoch, state, state.netGraph
    {
      state.Valid() && state.shardNum == cfg.shards == shardEpoch.Length
    }

    /** The supervisor of the transition system. */
    ghost function View(): Supervisor
      reads this, shardEpoch, state
    {
      Supervisor(supervisorEpoch, epochSynced, shardEpoch[..], state.partitionMap)
    }

    method CheckEpochSyncAndMark() returns (synced: bool)
      modifies this
      ensures synced == EpochSynced(old(View()))
      ensures View() == old(View()).(synced := synced) && stopCnt == old(stopCnt) && unsentTxNum == old(unsentTxNum)
    {
      if epochSynced { return true; }
      for i := 0 to shardEpoch.Length
        invariant forall j :: 0 <= j < i ==> shardEpoch[j] == supervisorEpoch
      {
        if shardEpoch[i] != supervisorEpoch { return false; }
      }
      epochSynced := true;
      return true;
    }

    /**
     * A report from a shard: its epoch, and the executed transactions as new edges of the graph. Once everything has
     * been injected, empty blocks in a row are counted.
     */
    method HandleMsg(shard: Shard, epoch: int, inner: seq<Tx>, r1: seq<Tx>, r2: seq<Tx>) returns (ok: bool)
      requires Valid()
      modifies this`stopCnt, shardEpoch, state, state.netGraph
      ensures Valid() && ok == (shard < cfg.shards)
      ensures View() == HandleInfo(cfg, old(View()), shard, epoch, inner, r2)
      ensures state.netGraph.edges == old(state.netGraph.edges) + if ok then EdgesOf(inner + r2) else []
      ensures stopCnt == if ok then StopCount(old(stopCnt), unsentTxNum, |inner| + |r1| + |r2|) else old(stopCnt)
    {
      if shard >= cfg.shards { return false; }
      if shardEpoch[shard] < epoch { shardEpoch[shard] := epoch; }
      if unsentTxNum <= 0 && |inner| + |r1| + |r2| == 0 {
        stopCnt := stopCnt + 1;
      } else if unsentTxNum <= 0 {
        stopCnt := 0;
      }
      UpdateGraph(inner, r2);
      return true;
    }

    method UpdateGraph(inner: seq<Tx>, r2: seq<Tx>)
      requires Valid()
      modifies state, state.netGraph
      ensures Valid() && state.partitionMap == WithVertices(old(state.partitionMap), cfg.shards, AccountsOf(inner + r2))
      ensures state.netGraph.edges == old(state.netGraph.edges) + EdgesOf(inner + r2)
    {
      hide WithVertices;
      ghost var before := state.partitionMap;
      AddEdges(inner);
      AddEdges(r2);
      AccountsOfAppend(inner, r2);
      EdgesOfAppend(inner, r2);
      WithMoreVertices(before, cfg.shards, AccountsOf(inner), AccountsOf(r2));
    }

    method AddEdges(txs: seq<Tx>)
      requires Valid()
      modifies state, state.netGraph
      ensures Valid() && state.partitionMap == WithVertices(old(state.partitionMap), cfg.shards, AccountsOf(txs))
      ensures state.netGraph.edges == old(state.netGraph.edges) + EdgesOf(txs)
    {
      ghost var before, known := state.partitionMap, state.netGraph.edges;
      for i := 0 to |txs|
        invariant Valid()
        invariant state.partitionMap == WithVertices(before, cfg.shards, AccountsOf(txs[..i]))
        invariant state.netGraph.edges == known + EdgesOf(txs[..i])
      {
        assert txs[..i + 1][..i] == txs[..i];
        WithOneMoreEdge(before, cfg.shards, AccountsOf(txs[..i]), txs[i].Sender(), txs[i].Recipient());
        hide WithVertices;
        state.AddEdge(txs[i].Sender(), txs[i].Recipient());
      }
      assert txs[..|txs|] == txs;
    }

    /** A repartition tells every shard exactly which accounts change place. */
    method Repartition() returns (out: seq<Msg>)
      requires Valid()
      modifies this, state
      ensures Valid()
      ensures View() == Supervisor(old(supervisorEpoch) + 1, false, old(shardEpoch[..]), state.partitionMap)
      ensures state.partitionMap.Keys == old(state.partitionMap).Keys
      ensures forall a :: a in state.partitionMap ==> state.partitionMap[a] < cfg.shards
      ensures out == Starts(cfg.shards, old(supervisorEpoch) + 1, Difference(cfg.shards, old(state.partitionMap), state.partitionMap))
      ensures stopCnt == 0 && unsentTxNum == old(unsentTxNum)
    {
      ghost var before := state.partitionMap;
      var modifiedMap, _, _ := state.CLPAPartition();
      assert modifiedMap == Difference(cfg.shards, before, state.partitionMap);
      supervisorEpoch := supervisorEpoch + 1;
      out := Starts(cfg.shards, supervisorEpoch, modifiedMap);
      epochSynced := false;
      stopCnt := 0;
    }

    /** What the source has read, or nothing when it fails, goes to the shards of the senders and is counted as sent. */
    method ReadTxsAndSend(read: Option<seq<Tx>>) returns (out: seq<Msg>, ok: bool)
      requires Valid()
      modifies this`unsentTxNum
      ensures Valid() && View() == old(View()) && ok == read.Some?
      ensures out == if ok then Deliveries(ByShard(read.value, SenderShard(state.partitionMap, cfg.shards), cfg.shards)) else []
      ensures unsentTxNum == old(unsentTxNum) - if ok then |read.value| else 0
    {
      if read.None? { return [], false; }
      var shardTxs := PackShardTxs(read.value, cfg.shards, SenderShard(state.partitionMap, cfg.shards));
      out := SendWrappedTxs2Shards(shardTxs);
      unsentTxNum := unsentTxNum - |read.value|;
      ok := true;
    }

    /** One tick: wait for the epoch to end, repartition when it is time, and inject transactions otherwise. */
    method SendTxsAndConsensus(epochOver: bool, read: Option<seq<Tx>>, ghost sys: Sys) returns (out: seq<Msg>)
      requires Valid() && sys.sup == View()
      modifies this, state
      ensures Valid()
      ensures !EpochSynced(sys.sup) ==> View() == sys.sup && out == []
      ensures EpochSynced(sys.sup) && !epochOver && read.Some? ==>
        View() == Injected(cfg, sys, read.value).sup && sys.net + out == Injected(cfg, sys, read.value).net
      ensures EpochSynced(sys.sup) && !epochOver && read.None? ==> View() == sys.sup.(synced := true) && out == []
      ensures EpochSynced(sys.sup) && epochOver ==>
        && View() == Repartitioned(cfg, sys, state.partitionMap).sup
        && sys.net + out == Repartitioned(cfg, sys, state.partitionMap).net
        && Enabled(cfg, sys, Action.Repartition(state.partitionMap))
    {
      var synced := CheckEpochSyncAndMark();
      if !synced { return []; }
      if epochOver {
        out := Repartition();
      } else {
        var ok;
        out, ok := ReadTxsAndSend(read);
      }
    }
  }
}
