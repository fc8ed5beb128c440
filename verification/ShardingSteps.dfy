/** Every step of the dynamic-sharding protocol keeps the invariant. */
module ShardingSteps {
  import opened Prelude
  import opened Accounts
  import opened Transactions
  import opened Execute
  import opened Chain
  import opened Migration
  import opened RelayOps
  import opened Sharding
  import opened ShardingInvariant
  import opened Pool = TxPool

  /** Only leader s changed, and neither its chain nor its epoch: nothing owed changes. */
  lemma QuietCarries(cfg: Cfg, sys: Sys, sys': Sys, s: Shard)
    requires Shape(cfg, sys) && s < cfg.shards
    requires sys'.sup == sys.sup && sys'.prev == sys.prev && |sys'.shards| == |sys.shards|
    requires forall t :: 0 <= t < cfg.shards && t != s ==> sys'.shards[t] == sys.shards[t]
    requires sys'.shards[s].st == sys.shards[s].st && sys'.shards[s].epoch == sys.shards[s].epoch
    requires sys.shards[s].snapped ==> sys'.shards[s].snapped
    ensures Carries(cfg, sys, sys')
  {
    forall t | 0 <= t < |sys.shards| ensures sys'.shards[t].st == sys.shards[t].st {
    }
  }

  /** Nobody arrives in a quiet step, so the frozen shards stay the ones they were. */
  lemma ShapeCarries(cfg: Cfg, sys: Sys, sys': Sys)
    requires Shape(cfg, sys) && Carries(cfg, sys, sys') && sys'.sup == sys.sup && sys'.prev == sys.prev
    requires forall s :: 0 <= s < cfg.shards ==> sys'.shards[s].epoch == sys.shards[s].epoch
    ensures Shape(cfg, sys')
  {
    forall d, s | 0 <= d < cfg.shards && 0 <= s < cfg.shards && Arrived(sys', d) ensures Frozen(sys', s) {
      assert Arrived(sys, d);
      assert Frozen(sys, s);
    }
  }

  lemma OwnStays(net: seq<Msg>, i: nat, s: Shard)
    requires i < |net| && !IsOwnMigration(net[i], s)
    requires exists k :: 0 <= k < |net| && IsOwnMigration(net[k], s)
    ensures exists k :: 0 <= k < |Without(net, i)| && IsOwnMigration(Without(net, i)[k], s)
  {
    var k :| 0 <= k < |net| && IsOwnMigration(net[k], s);
    StillThere(net, i, k);
  }

  lemma OwnStaysOnAppend(net: seq<Msg>, more: seq<Msg>, s: Shard)
    requires exists k :: 0 <= k < |net| && IsOwnMigration(net[k], s)
    ensures exists k :: 0 <= k < |net + more| && IsOwnMigration((net + more)[k], s)
  {
    var k :| 0 <= k < |net| && IsOwnMigration(net[k], s);
    assert (net + more)[k] == net[k];
  }

  // ------------------------------------------------------- what a one-leader step leaves alone

  /** Message i was handled by leader s: every other leader is still in order. */
  lemma OthersAfterHandling(cfg: Cfg, sys: Sys, sys': Sys, i: nat, s: Shard)
    requires Inv(cfg, sys) && i < |sys.net| && s < cfg.shards && Carries(cfg, sys, sys')
    requires sys'.sup == sys.sup && sys'.net == Without(sys.net, i)
    requires forall t :: 0 <= t < cfg.shards && t != s ==> sys'.shards[t] == sys.shards[t] && !IsOwnMigration(sys.net[i], t)
    ensures forall t :: 0 <= t < cfg.shards && t != s ==> LeaderOk(cfg, sys', t)
  {
    forall t | 0 <= t < cfg.shards && t != s ensures LeaderOk(cfg, sys', t) {
      assert LeaderOk(cfg, sys, t);
      hide LeaderOk, MsgOk, Unheard;
      if OwnOnItsWay(sys, t) { OwnStays(sys.net, i, t); }
      LeaderCarries(cfg, sys, sys', t);
    }
  }

  /** What MsgCarries asks of the step. */
  ghost predicate Undisturbed(sys: Sys, sys': Sys, m: Msg) {
    match m
    case RepartitionStart(to, _, _) => to < |sys.shards| && to < |sys'.shards| && sys'.shards[to].meta.epoch == sys.shards[to].meta.epoch
    case AccountMigration(mm) => 0 <= mm.dest < |sys'.shards| && !Arrived(sys', mm.dest)
    case BlockInfo(s, _, _, _, _) => s < |sys.shards| && s < |sys'.shards| && sys.shards[s].epoch <= sys'.shards[s].epoch
    case ReceiveTxs(_, _) => true
  }

  lemma NetAfterHandling(cfg: Cfg, sys: Sys, sys': Sys, i: nat)
    requires Inv(cfg, sys) && i < |sys.net| && Carries(cfg, sys, sys') && sys'.net == Without(sys.net, i)
    requires forall k :: 0 <= k < |sys.net| && k != i ==> Undisturbed(sys, sys', sys.net[k]) && Unheard(sys', sys.net[k])
    ensures (forall j :: 0 <= j < |sys'.net| ==> MsgOk(cfg, sys', sys'.net[j]) && Unheard(sys', sys'.net[j])) && NoClash(sys'.net)
  {
    hide LeaderOk, Unheard;
    NoClashWithout(sys.net, i);
    forall j | 0 <= j < |sys'.net| ensures MsgOk(cfg, sys', sys'.net[j]) && Unheard(sys', sys'.net[j]) {
      var k := if j < i then j else j + 1;
      assert sys'.net[j] == sys.net[k] && MsgOk(cfg, sys, sys.net[k]);
      MsgCarries(cfg, sys, sys', sys.net[k]);
    }
  }

  /** Leader s acted and sent out: every other leader is still in order. */
  lemma OthersAfterSending(cfg: Cfg, sys: Sys, sys': Sys, out: seq<Msg>, s: Shard)
    requires Inv(cfg, sys) && s < cfg.shards && Carries(cfg, sys, sys')
    requires sys'.sup == sys.sup && sys'.net == sys.net + out
    requires forall t :: 0 <= t < cfg.shards && t != s ==> sys'.shards[t] == sys.shards[t]
    ensures forall t :: 0 <= t < cfg.shards && t != s ==> LeaderOk(cfg, sys', t)
    ensures OwnOnItsWay(sys, s) ==> OwnOnItsWay(sys', s)
  {
    forall t | 0 <= t < cfg.shards && t != s ensures LeaderOk(cfg, sys', t) {
      assert LeaderOk(cfg, sys, t);
      hide LeaderOk, MsgOk, Unheard;
      if OwnOnItsWay(sys, t) { OwnStaysOnAppend(sys.net, out, t); }
      LeaderCarries(cfg, sys, sys', t);
    }
    if OwnOnItsWay(sys, s) { OwnStaysOnAppend(sys.net, out, s); }
  }

  /** Messages already under way stay in order when the step leaves metadata and epochs alone. */
  lemma NetBeforeSending(cfg: Cfg, sys: Sys, sys': Sys)
    requires Inv(cfg, sys) && Carries(cfg, sys, sys')
    requires forall t :: 0 <= t < cfg.shards ==> sys'.shards[t].meta == sys.shards[t].meta && sys'.shards[t].epoch == sys.shards[t].epoch
    ensures forall i :: 0 <= i < |sys.net| ==> MsgOk(cfg, sys', sys.net[i]) && Unheard(sys', sys.net[i])
  {
    hide LeaderOk;
    forall i | 0 <= i < |sys.net| ensures MsgOk(cfg, sys', sys.net[i]) && Unheard(sys', sys.net[i]) {
      assert MsgOk(cfg, sys, sys.net[i]) && Unheard(sys, sys.net[i]);
      MsgCarries(cfg, sys, sys', sys.net[i]);
    }
  }

  // --------------------------------------------------------------------- deliveries

  lemma DeliverTxs(cfg: Cfg, sys: Sys, i: nat)
    requires Inv(cfg, sys) && i < |sys.net| && sys.net[i].ReceiveTxs?
    ensures sys.net[i].to < |sys.shards| && Inv(cfg, Received(cfg, sys, i))
  {
    assert MsgOk(cfg, sys, sys.net[i]);
    var s, sys' := sys.net[i].to, Received(cfg, sys, i);
    assert LeaderOk(cfg, sys, s);
    QuietCarries(cfg, sys, sys', s);
    ShapeCarries(cfg, sys, sys');
    if OwnOnItsWay(sys, s) { OwnStays(sys.net, i, s); }
    LeaderCarriesExcept(cfg, sys, sys', s);
    OthersAfterHandling(cfg, sys, sys', i, s);
    SameMetaNet(cfg, sys, sys', i);
  }

  lemma SameMetaNet(cfg: Cfg, sys: Sys, sys': Sys, i: nat)
    requires Inv(cfg, sys) && i < |sys.net| && Carries(cfg, sys, sys') && sys'.net == Without(sys.net, i)
    requires forall t :: 0 <= t < cfg.shards ==> sys'.shards[t].meta == sys.shards[t].meta && sys'.shards[t].epoch == sys.shards[t].epoch
    ensures (forall j :: 0 <= j < |sys'.net| ==> MsgOk(cfg, sys', sys'.net[j]) && Unheard(sys', sys'.net[j])) && NoClash(sys'.net)
  {
    hide LeaderOk;
    forall k | 0 <= k < |sys.net| && k != i ensures Undisturbed(sys, sys', sys.net[k]) && Unheard(sys', sys.net[k]) {
      assert MsgOk(cfg, sys, sys.net[k]) && Unheard(sys, sys.net[k]);
    }
    NetAfterHandling(cfg, sys, sys', i);
  }

  /** A leader whose chain, epoch, metadata and snapshot flag are as before; its pool and proposal are argued for by the step. */
  lemma LeaderCarriesExcept(cfg: Cfg, sys: Sys, sys': Sys, s: Shard)
    requires Shape(cfg, sys) && s < cfg.shards && LeaderOk(cfg, sys, s)
    requires Carries(cfg, sys, sys') && sys'.sup == sys.sup
    requires sys'.shards[s] == sys.shards[s].(pool := sys'.shards[s].pool, proposal := sys'.shards[s].proposal)
    requires TxsOk(cfg, sys'.shards[s].pool) && ProposalAt(cfg, sys', s)
    requires OwnOnItsWay(sys, s) ==> OwnOnItsWay(sys', s)
    ensures LeaderOk(cfg, sys', s)
  {
    var meta := sys.shards[s].meta;
    assert MetaAt(cfg, sys, s);
    forall e, i | e in meta.early && 0 <= i < |meta.early[e]|
      ensures MigrationOk(cfg, sys', meta.early[e][i])
    {
      MigrationCarries(cfg, sys, sys', meta.early[e][i]);
    }
    assert Arrived(sys, s) <==> Arrived(sys', s);
  }

  /** A repartition start is always the next one; what arrived early is replayed and all of it is wanted. */
  lemma DeliverStart(cfg: Cfg, sys: Sys, i: nat)
    requires Inv(cfg, sys) && i < |sys.net| && sys.net[i].RepartitionStart?
    ensures sys.net[i].to < |sys.shards| && Inv(cfg, Received(cfg, sys, i))
    ensures sys.net[i].epoch == sys.shards[sys.net[i].to].meta.epoch + 1
  {
    assert MsgOk(cfg, sys, sys.net[i]);
    var s, sys' := sys.net[i].to, Received(cfg, sys, i);
    assert LeaderOk(cfg, sys, s);
    QuietCarries(cfg, sys, sys', s);
    ShapeCarries(cfg, sys, sys');
    StartedLeader(cfg, sys, sys', i);
    OthersAfterHandling(cfg, sys, sys', i, s);
    StartedNet(cfg, sys, sys', i);
  }

  lemma StartedNet(cfg: Cfg, sys: Sys, sys': Sys, i: nat)
    requires Inv(cfg, sys) && i < |sys.net| && sys.net[i].RepartitionStart?
    requires sys.net[i].to < cfg.shards && sys' == Received(cfg, sys, i) && Carries(cfg, sys, sys')
    ensures (forall j :: 0 <= j < |sys'.net| ==> MsgOk(cfg, sys', sys'.net[j]) && Unheard(sys', sys'.net[j])) && NoClash(sys'.net)
  {
    hide LeaderOk;
    NoClashWithout(sys.net, i);
    forall k | 0 <= k < |sys.net| && k != i ensures Undisturbed(sys, sys', sys.net[k]) && Unheard(sys', sys.net[k]) {
      assert MsgOk(cfg, sys, sys.net[k]) && !Clash(sys.net[i], sys.net[k]);
      StartedUnheard(cfg, sys, sys', i, k);
    }
    NetAfterHandling(cfg, sys, sys', i);
  }

  /** Replaying messages for the epoch just entered records each of them and buffers none. */
  lemma {:induction false} ReplayAll(m: Meta, shardNum: nat, self: Shard, msgs: seq<MigrationMsg>)
    requires forall i :: 0 <= i < |msgs| ==> msgs[i].epoch == m.epoch && msgs[i].dest == self && 0 <= msgs[i].src < shardNum
    ensures var r := CollectAll(m, shardNum, self, msgs);
            && r == m.(collected := r.collected)
            && (forall src :: src in r.collected <==> src in m.collected || exists i :: 0 <= i < |msgs| && msgs[i].src == src)
            && (forall src :: src in r.collected ==>
                  (src in m.collected && r.collected[src] == m.collected[src]) ||
                  exists i :: 0 <= i < |msgs| && msgs[i].src == src && r.collected[src] == msgs[i].states)
  {
    if msgs != [] {
      var most, last := msgs[..|msgs| - 1], msgs[|msgs| - 1];
      assert msgs == most + [last];
      ReplayAll(m, shardNum, self, most);
      var before, r := CollectAll(m, shardNum, self, most), CollectAll(m, shardNum, self, msgs);
      assert r == before.(collected := before.collected[last.src := last.states]);
      forall src | src in r.collected
        ensures (src in m.collected && r.collected[src] == m.collected[src]) ||
                exists i :: 0 <= i < |msgs| && msgs[i].src == src && r.collected[src] == msgs[i].states
      {
        if src == last.src {
          assert msgs[|msgs| - 1].src == src;
        } else if !(src in m.collected && before.collected[src] == m.collected[src]) {
          var i :| 0 <= i < |most| && most[i].src == src && before.collected[src] == most[i].states;
          assert msgs[i] == most[i];
        }
      }
      forall src | src in m.collected || exists i :: 0 <= i < |msgs| && msgs[i].src == src
        ensures src in r.collected
      {
        if src !in m.collected && src != last.src {
          var i :| 0 <= i < |msgs| && msgs[i].src == src;
          assert most[i] == msgs[i];
        }
      }
    }
  }

  ghost function EnteredMeta(m: Meta, epoch: int, modified: map<Acct, Shard>): Meta {
    m.(epoch := epoch, modified := modified, ready := true)
  }

  /** The metadata after a start: the sources heard are exactly those whose messages had arrived early. */
  lemma StartedMeta(cfg: Cfg, sys: Sys, s: Shard)
    requires Inv(cfg, sys) && s < cfg.shards && sys.sup.epoch == sys.shards[s].meta.epoch + 1
    ensures var l := sys.shards[s];
            var early := Early(l.meta, sys.sup.epoch);
            var r := StartEpoch(l.meta, cfg.shards, s, sys.sup.epoch, Moving(cfg, sys));
            && r.Some?
            && r.value.epoch == sys.sup.epoch && r.value.ready && r.value.modified == Moving(cfg, sys)
            && r.value.early == l.meta.early[sys.sup.epoch := []]
            && (forall src :: src in r.value.collected <==> exists i :: 0 <= i < |early| && early[i].src == src)
            && (forall src :: src in r.value.collected ==> 0 <= src < cfg.shards && Frozen(sys, src) && r.value.collected[src] == Owed(cfg, sys, src, s))
  {
    var l := sys.shards[s];
    assert LeaderOk(cfg, sys, s);
    var entered := EnteredMeta(l.meta, sys.sup.epoch, Moving(cfg, sys));
    var early := Early(l.meta, sys.sup.epoch);
    assert Early(entered, sys.sup.epoch) == early;
    forall i | 0 <= i < |early| ensures early[i].epoch == sys.sup.epoch && early[i].dest == s && MigrationOk(cfg, sys, early[i]) {
      assert sys.sup.epoch in l.meta.early;
    }
    ReplayAll(entered, cfg.shards, s, early);
    var r := CollectAll(entered, cfg.shards, s, early);
    forall src | src in r.collected
      ensures 0 <= src < cfg.shards && Frozen(sys, src) && r.collected[src] == Owed(cfg, sys, src, s)
    {
      var i :| 0 <= i < |early| && early[i].src == src && r.collected[src] == early[i].states;
      assert MigrationOk(cfg, sys, early[i]);
    }
  }

  /** Nothing is buffered for an epoch other than the supervisor's. */
  lemma OnlyCurrentIsEarly(cfg: Cfg, sys: Sys, s: Shard)
    requires Inv(cfg, sys) && s < cfg.shards
    ensures var early := sys.shards[s].meta.early;
            forall e :: e in early && e != sys.sup.epoch ==> early[e] == []
  {
    var early: map<int, seq<MigrationMsg>> := sys.shards[s].meta.early;
    assert LeaderOk(cfg, sys, s);
    forall e: int | e in early && e != sys.sup.epoch ensures early[e] == [] {
      assert |early[e]| > 0 ==> early[e][0].epoch == e && MigrationOk(cfg, sys, early[e][0]);
    }
  }

  lemma StartedUnheard(cfg: Cfg, sys: Sys, sys': Sys, i: nat, k: nat)
    requires Inv(cfg, sys) && i < |sys.net| && k < |sys.net| && i != k && sys.net[i].RepartitionStart?
    requires sys.net[i].to < cfg.shards && sys' == Received(cfg, sys, i)
    ensures Unheard(sys', sys.net[k])
  {
    assert MsgOk(cfg, sys, sys.net[i]) && MsgOk(cfg, sys, sys.net[k]) && Unheard(sys, sys.net[k]);
    StartedMeta(cfg, sys, sys.net[i].to);
  }

  lemma StartedLeader(cfg: Cfg, sys: Sys, sys': Sys, i: nat)
    requires Inv(cfg, sys) && i < |sys.net| && sys.net[i].RepartitionStart?
    requires sys.net[i].to < cfg.shards && sys' == Received(cfg, sys, i)
    requires Carries(cfg, sys, sys')
    ensures LeaderOk(cfg, sys', sys.net[i].to)
  {
    var s := sys.net[i].to;
    assert MsgOk(cfg, sys, sys.net[i]) && LeaderOk(cfg, sys, s);
    StartedMeta(cfg, sys, s);
    var l, l' := sys.shards[s], sys'.shards[s];
    assert l' == l.(meta := l'.meta);
    OnlyCurrentIsEarly(cfg, sys, s);
    assert Arrived(sys, s) <==> Arrived(sys', s);
    assert MetaAt(cfg, sys', s);
    assert ProposalAt(cfg, sys', s);
  }

  /** A migration message is recorded or buffered, never refused. */
  lemma DeliverMigration(cfg: Cfg, sys: Sys, i: nat)
    requires Inv(cfg, sys) && i < |sys.net| && sys.net[i].AccountMigration?
    ensures 0 <= sys.net[i].m.dest < |sys.shards| && Inv(cfg, Received(cfg, sys, i))
    ensures Accepts(sys.shards[sys.net[i].m.dest].meta, cfg.shards, sys.net[i].m.dest, sys.net[i].m)
  {
    assert MsgOk(cfg, sys, sys.net[i]);
    var s, sys' := sys.net[i].m.dest, Received(cfg, sys, i);
    assert LeaderOk(cfg, sys, s);
    QuietCarries(cfg, sys, sys', s);
    ShapeCarries(cfg, sys, sys');
    CollectedLeader(cfg, sys, sys', i);
    OthersAfterHandling(cfg, sys, sys', i, s);
    CollectedNet(cfg, sys, sys', i);
  }

  lemma CollectedNet(cfg: Cfg, sys: Sys, sys': Sys, i: nat)
    requires Inv(cfg, sys) && i < |sys.net| && sys.net[i].AccountMigration?
    requires 0 <= sys.net[i].m.dest < cfg.shards && sys' == Received(cfg, sys, i) && Carries(cfg, sys, sys')
    ensures (forall j :: 0 <= j < |sys'.net| ==> MsgOk(cfg, sys', sys'.net[j]) && Unheard(sys', sys'.net[j])) && NoClash(sys'.net)
  {
    hide LeaderOk;
    NoClashWithout(sys.net, i);
    forall k | 0 <= k < |sys.net| && k != i ensures Undisturbed(sys, sys', sys.net[k]) && Unheard(sys', sys.net[k]) {
      assert MsgOk(cfg, sys, sys.net[k]) && !Clash(sys.net[i], sys.net[k]);
      CollectedUnheard(cfg, sys, sys', i, k);
    }
    NetAfterHandling(cfg, sys, sys', i);
  }

  lemma CollectedUnheard(cfg: Cfg, sys: Sys, sys': Sys, i: nat, k: nat)
    requires Inv(cfg, sys) && i < |sys.net| && k < |sys.net| && sys.net[i].AccountMigration?
    requires 0 <= sys.net[i].m.dest < cfg.shards && sys' == Received(cfg, sys, i)
    requires !Clash(sys.net[i], sys.net[k])
    ensures Unheard(sys', sys.net[k])
  {
    hide LeaderOk;
    assert Unheard(sys, sys.net[k]) && MsgOk(cfg, sys, sys.net[k]);
    var m, n := sys.net[i].m, sys.net[k];
    if n.AccountMigration? && n.m.dest == m.dest {
      var before, after := sys.shards[m.dest].meta, sys'.shards[m.dest].meta;
      assert after == Collect(before, cfg.shards, m.dest, m);
      forall j | 0 <= j < |Early(after, n.m.epoch)| ensures Early(after, n.m.epoch)[j].src != n.m.src {
        if j < |Early(before, n.m.epoch)| {
          assert Early(after, n.m.epoch)[j] == Early(before, n.m.epoch)[j];
        }
      }
    }
  }

  lemma CollectedLeader(cfg: Cfg, sys: Sys, sys': Sys, i: nat)
    requires Inv(cfg, sys) && i < |sys.net| && sys.net[i].AccountMigration?
    requires 0 <= sys.net[i].m.dest < cfg.shards && sys' == Received(cfg, sys, i)
    requires Carries(cfg, sys, sys')
    ensures LeaderOk(cfg, sys', sys.net[i].m.dest)
  {
    var m := sys.net[i].m;
    var s := m.dest;
    assert MsgOk(cfg, sys, sys.net[i]) && Unheard(sys, sys.net[i]) && LeaderOk(cfg, sys, s);
    assert sys'.shards[s] == sys.shards[s].(meta := Collect(sys.shards[s].meta, cfg.shards, s, m));
    assert Arrived(sys, s) <==> Arrived(sys', s);
    if sys.shards[s].snapped && s !in sys'.shards[s].meta.collected {
      assert !IsOwnMigration(sys.net[i], s);
      OwnStays(sys.net, i, s);
    }
    if m.epoch > sys.shards[s].meta.epoch {
      BufferedMeta(cfg, sys, sys', m);
    } else {
      RecordedMeta(cfg, sys, sys', m);
    }
    assert ProposalAt(cfg, sys', s);
  }

  lemma BufferedMeta(cfg: Cfg, sys: Sys, sys': Sys, m: MigrationMsg)
    requires Shape(cfg, sys) && Carries(cfg, sys, sys') && 0 <= m.dest < cfg.shards && MigrationOk(cfg, sys, m)
    requires MetaAt(cfg, sys, m.dest) && sys.shards[m.dest].meta.epoch < m.epoch
    requires sys'.shards[m.dest] == sys.shards[m.dest].(meta := Collect(sys.shards[m.dest].meta, cfg.shards, m.dest, m))
    requires sys.shards[m.dest].snapped && m.dest !in sys'.shards[m.dest].meta.collected ==> OwnOnItsWay(sys', m.dest)
    ensures MetaAt(cfg, sys', m.dest)
  {
    var meta, meta' := sys.shards[m.dest].meta, sys'.shards[m.dest].meta;
    forall e, k | e in meta'.early && 0 <= k < |meta'.early[e]|
      ensures meta'.early[e][k].epoch == e && meta'.early[e][k].dest == m.dest && e > meta'.epoch && MigrationOk(cfg, sys', meta'.early[e][k])
    {
      if k < |Early(meta, e)| {
        assert e in meta.early && meta.early[e][k] == meta'.early[e][k];
      }
      MigrationCarries(cfg, sys, sys', meta'.early[e][k]);
    }
  }

  lemma RecordedMeta(cfg: Cfg, sys: Sys, sys': Sys, m: MigrationMsg)
    requires Shape(cfg, sys) && Carries(cfg, sys, sys') && 0 <= m.dest < cfg.shards && MigrationOk(cfg, sys, m)
    requires MetaAt(cfg, sys, m.dest) && sys.shards[m.dest].meta.epoch == m.epoch
    requires sys'.shards[m.dest] == sys.shards[m.dest].(meta := Collect(sys.shards[m.dest].meta, cfg.shards, m.dest, m))
    requires sys.shards[m.dest].snapped && m.dest !in sys'.shards[m.dest].meta.collected ==> OwnOnItsWay(sys', m.dest)
    requires sys.shards[m.dest].epoch < sys.shards[m.dest].meta.epoch
    ensures MetaAt(cfg, sys', m.dest)
  {
    CurrentHasNoEarly(cfg, sys, m.dest);
  }

  /** A shard whose metadata is in the current epoch has nothing buffered. */
  lemma CurrentHasNoEarly(cfg: Cfg, sys: Sys, s: Shard)
    requires cfg.shards > 0 && s < |sys.shards|
    requires MetaAt(cfg, sys, s) && sys.shards[s].meta.epoch == sys.sup.epoch
    ensures forall e :: e in sys.shards[s].meta.early ==> sys.shards[s].meta.early[e] == []
  {
    var early: map<int, seq<MigrationMsg>> := sys.shards[s].meta.early;
    forall e: int | e in early ensures early[e] == [] {
      assert |early[e]| > 0 ==> early[e][0].epoch == e && MigrationOk(cfg, sys, early[e][0]);
    }
  }

  // ------------------------------------------------------------------- the supervisor

  lemma HandleInfoOk(cfg: Cfg, sys: Sys, i: nat)
    requires Inv(cfg, sys) && i < |sys.net| && sys.net[i].BlockInfo?
    ensures Inv(cfg, Informed(cfg, sys, i))
  {
    var m, sys' := sys.net[i], Informed(cfg, sys, i);
    assert MsgOk(cfg, sys, m) && LeaderOk(cfg, sys, m.shard);
    InformedCarries(cfg, sys, i);
    assert Shape(cfg, sys') by {
      forall s | sys'.sup.synced && 0 <= s < cfg.shards ensures sys'.sup.shardEpoch[s] == sys'.sup.epoch {
        assert LeaderOk(cfg, sys, s) && BarrierAt(sys, s);
      }
      forall d, s | 0 <= d < cfg.shards && 0 <= s < cfg.shards && Arrived(sys', d) ensures Frozen(sys', s) {
        assert Arrived(sys, d);
        assert Frozen(sys, s);
      }
    }
    forall t | 0 <= t < cfg.shards ensures LeaderOk(cfg, sys', t) {
      assert LeaderOk(cfg, sys, t);
      if OwnOnItsWay(sys, t) { OwnStays(sys.net, i, t); }
      LeaderCarries(cfg, sys, sys', t);
    }
    SameMetaNet(cfg, sys, sys', i);
  }

  /** New graph vertices enter at their default location and move nobody. */
  lemma InformedCarries(cfg: Cfg, sys: Sys, i: nat)
    requires Inv(cfg, sys) && i < |sys.net| && sys.net[i].BlockInfo?
    ensures Carries(cfg, sys, Informed(cfg, sys, i))
  {
    var sys' := Informed(cfg, sys, i);
    assert forall a: Acct :: Now(cfg, sys', a) == Now(cfg, sys, a) && Before(cfg, sys', a) == Before(cfg, sys, a);
    assert Moving(cfg, sys') == Moving(cfg, sys) by {
      forall a ensures a in Moving(cfg, sys') <==> a in Moving(cfg, sys) {
        assert Now(cfg, sys', a) == Now(cfg, sys, a) && Before(cfg, sys', a) == Before(cfg, sys, a);
      }
      forall a | a in Moving(cfg, sys) ensures Moving(cfg, sys')[a] == Moving(cfg, sys)[a] {
      }
    }
  }

  lemma {:induction false} DeliveriesAre(lists: seq<seq<Tx>>)
    ensures forall m :: m in Deliveries(lists) ==> m.ReceiveTxs? && m.to < |lists| && m.txs == lists[m.to]
  {
    if lists != [] { DeliveriesAre(lists[..|lists| - 1]); }
  }

  lemma ByShardOk(cfg: Cfg, txs: seq<Tx>, dest: Tx -> Option<Shard>)
    requires TxsOk(cfg, txs)
    ensures forall d :: 0 <= d < cfg.shards ==> TxsOk(cfg, ByShard(txs, dest, cfg.shards)[d])
  {
    forall d, tx | 0 <= d < cfg.shards && tx in ByShard(txs, dest, cfg.shards)[d] ensures TxOk(cfg, tx) {
      PickMembers(txs, (t: Tx) => dest(t) == Some(d), tx);
    }
  }

  /** Adding transaction deliveries (and a block info) disturbs no message already there. */
  lemma AppendTxs(cfg: Cfg, sys: Sys, sys': Sys, lists: seq<seq<Tx>>)
    requires cfg.shards > 0 && |sys'.shards| == |lists| == cfg.shards
    requires forall d :: 0 <= d < |lists| ==> TxsOk(cfg, lists[d])
    requires forall i :: 0 <= i < |sys.net| ==> MsgOk(cfg, sys', sys.net[i]) && Unheard(sys', sys.net[i])
    requires NoClash(sys.net)
    requires sys'.net == sys.net + Deliveries(lists)
    ensures forall i :: 0 <= i < |sys'.net| ==> MsgOk(cfg, sys', sys'.net[i]) && Unheard(sys', sys'.net[i])
    ensures NoClash(sys'.net)
  {
    DeliveriesAre(lists);
    var more := Deliveries(lists);
    forall i | 0 <= i < |sys'.net| ensures MsgOk(cfg, sys', sys'.net[i]) && Unheard(sys', sys'.net[i]) {
      if i >= |sys.net| { assert sys'.net[i] in more; } else { assert sys'.net[i] == sys.net[i]; }
    }
    forall i, j | 0 <= i < j < |sys'.net| ensures !Clash(sys'.net[i], sys'.net[j]) {
      if j >= |sys.net| {
        assert sys'.net[j] in more;
      } else {
        assert sys'.net[i] == sys.net[i] && sys'.net[j] == sys.net[j];
      }
    }
  }

  lemma InjectOk(cfg: Cfg, sys: Sys, txs: seq<Tx>)
    requires Inv(cfg, sys) && Enabled(cfg, sys, Inject(txs))
    ensures Inv(cfg, Injected(cfg, sys, txs))
  {
    var sys' := Injected(cfg, sys, txs);
    var dest := SenderShard(sys.sup.part, cfg.shards);
    assert Carries(cfg, sys, sys');
    forall d, s | 0 <= d < cfg.shards && 0 <= s < cfg.shards && Arrived(sys', d) ensures Frozen(sys', s) {
      assert Arrived(sys, d);
      assert Frozen(sys, s);
    }
    forall t | 0 <= t < cfg.shards ensures LeaderOk(cfg, sys', t) {
      assert LeaderOk(cfg, sys, t);
      if OwnOnItsWay(sys, t) { OwnStaysOnAppend(sys.net, Deliveries(ByShard(txs, dest, cfg.shards)), t); }
      LeaderCarries(cfg, sys, sys', t);
    }
    NetBeforeSending(cfg, sys, sys');
    ByShardOk(cfg, txs, dest);
    AppendTxs(cfg, sys, sys', ByShard(txs, dest, cfg.shards));
  }

  /** When the supervisor is synced, the epoch is over everywhere and no trace of it is under way. */
  lemma SyncedMeansOver(cfg: Cfg, sys: Sys)
    requires Inv(cfg, sys) && EpochSynced(sys.sup)
    ensures forall s :: 0 <= s < cfg.shards ==>
              var l := sys.shards[s];
              l.epoch == l.meta.epoch == sys.sup.epoch && !l.meta.ready && !l.snapped && l.meta.collected == map[]
    ensures forall s, e :: 0 <= s < cfg.shards && e in sys.shards[s].meta.early ==> sys.shards[s].meta.early[e] == []
    ensures forall i :: 0 <= i < |sys.net| ==> !sys.net[i].RepartitionStart? && !sys.net[i].AccountMigration?
  {
    forall s | 0 <= s < cfg.shards
      ensures var l := sys.shards[s];
              l.epoch == l.meta.epoch == sys.sup.epoch && !l.meta.ready && !l.snapped && l.meta.collected == map[]
    {
      assert LeaderOk(cfg, sys, s);
      assert forall src :: src !in sys.shards[s].meta.collected;
    }
    forall s, e | 0 <= s < cfg.shards && e in sys.shards[s].meta.early ensures sys.shards[s].meta.early[e] == [] {
      assert LeaderOk(cfg, sys, s);
      var early: map<int, seq<MigrationMsg>> := sys.shards[s].meta.early;
      assert |early[e]| > 0 ==> early[e][0].epoch == e && e > sys.sup.epoch && MigrationOk(cfg, sys, early[e][0]);
    }
    forall i | 0 <= i < |sys.net| ensures !sys.net[i].RepartitionStart? && !sys.net[i].AccountMigration? {
      assert MsgOk(cfg, sys, sys.net[i]);
    }
  }

  lemma RepartitionOk(cfg: Cfg, sys: Sys, placement: map<Acct, Shard>)
    requires Inv(cfg, sys) && Enabled(cfg, sys, Repartition(placement))
    ensures Inv(cfg, Repartitioned(cfg, sys, placement))
  {
    var sys' := Repartitioned(cfg, sys, placement);
    SyncedMeansOver(cfg, sys);
    forall t | 0 <= t < cfg.shards ensures LeaderOk(cfg, sys', t) {
      RepartitionLeader(cfg, sys, placement, t);
    }
    forall i | 0 <= i < |sys'.net| ensures MsgOk(cfg, sys', sys'.net[i]) && Unheard(sys', sys'.net[i]) {
      if i < |sys.net| {
        assert sys'.net[i] == sys.net[i] && MsgOk(cfg, sys, sys.net[i]);
      }
    }
    forall i, j | 0 <= i < j < |sys'.net| ensures !Clash(sys'.net[i], sys'.net[j]) {
      if j < |sys.net| {
        assert sys'.net[i] == sys.net[i] && sys'.net[j] == sys.net[j];
      }
    }
  }

  lemma RepartitionLeader(cfg: Cfg, sys: Sys, placement: map<Acct, Shard>, t: Shard)
    requires Inv(cfg, sys) && Enabled(cfg, sys, Repartition(placement)) && t < cfg.shards
    ensures LeaderOk(cfg, Repartitioned(cfg, sys, placement), t)
  {
    var sys' := Repartitioned(cfg, sys, placement);
    SyncedMeansOver(cfg, sys);
    assert LeaderOk(cfg, sys, t);
    assert LocationsAt(cfg, sys', t) by {
      assert forall a: Acct :: Before(cfg, sys', a) == Now(cfg, sys, a);
    }
    assert ProposalAt(cfg, sys', t);
    assert MetaAt(cfg, sys', t);
  }

  // ---------------------------------------------------------------------- proposals

  lemma ProposeTxsOk(cfg: Cfg, sys: Sys, s: Shard)
    requires Inv(cfg, sys) && s < cfg.shards && sys.shards[s].proposal.None? && !sys.shards[s].meta.ready
    ensures Inv(cfg, Apply(sys, s, ProposeTxs(cfg, s, sys.shards[s])))
  {
    var l := sys.shards[s];
    var e := ProposeTxs(cfg, s, l);
    var sys' := Apply(sys, s, e);
    assert LeaderOk(cfg, sys, s);
    QuietCarries(cfg, sys, sys', s);
    ShapeCarries(cfg, sys, sys');
    TxProposalOk(cfg, sys, s);
    OthersAfterSending(cfg, sys, sys', e.out, s);
    LeaderCarriesExcept(cfg, sys, sys', s);
    var k := PackCount(l.pool, cfg.blockSize, IsHere(l.st.loc, cfg.shards, s));
    var forwarded := ByShard(l.pool[..k], Elsewhere(l.st.loc, cfg.shards, s), cfg.shards);
    hide LeaderOk;
    NetBeforeSending(cfg, sys, sys');
    ByShardOk(cfg, l.pool[..k], Elsewhere(l.st.loc, cfg.shards, s));
    AppendTxs(cfg, sys, sys', forwarded);
  }

  /** The transactions of a proposal run in this shard, and the proposal has passed its preview. */
  lemma TxProposalOk(cfg: Cfg, sys: Sys, s: Shard)
    requires Inv(cfg, sys) && s < cfg.shards && sys.shards[s].proposal.None? && !sys.shards[s].meta.ready
    ensures var sys' := Apply(sys, s, ProposeTxs(cfg, s, sys.shards[s]));
            ProposalAt(cfg, sys', s) && TxsOk(cfg, sys'.shards[s].pool)
  {
    var l := sys.shards[s];
    assert LeaderOk(cfg, sys, s);
    var here := IsHere(l.st.loc, cfg.shards, s);
    var k := PackCount(l.pool, cfg.blockSize, here);
    var packed := Pick(l.pool[..k], here);
    forall tx | tx in packed ensures TxOk(cfg, tx) && Local(l.st.loc, cfg.shards, s, tx) {
      PickMembers(l.pool[..k], here, tx);
    }
    TaggedRunHere(l.st.loc, cfg.shards, s, packed);
    var tagged := TaggedAll(l.st.loc, cfg.shards, s, packed);
    forall tx | tx in tagged ensures tx.Sender() < cfg.accounts && tx.Recipient() < cfg.accounts {
      AccountsInRange(packed, cfg.accounts);
      assert tx.Sender() in AccountsOf(tagged) && tx.Recipient() in AccountsOf(tagged);
    }
  }

  lemma {:induction false} AccountsInRange(txs: seq<Tx>, n: nat)
    requires forall tx :: tx in txs ==> tx.Sender() < n && tx.Recipient() < n
    ensures forall a :: a in AccountsOf(txs) ==> a < n
  {
    if txs != [] {
      AccountsInRange(txs[..|txs| - 1], n);
      assert txs[|txs| - 1] in txs;
    }
  }

  /** A leader that still has to send its accounts is not frozen, so nothing from it is anywhere. */
  lemma NotSentYet(cfg: Cfg, sys: Sys, s: Shard)
    requires Inv(cfg, sys) && s < cfg.shards && sys.shards[s].meta.ready
    requires s !in sys.shards[s].meta.collected && !OwnOnItsWay(sys, s)
    ensures !Frozen(sys, s) && sys.shards[s].meta.epoch == sys.sup.epoch == sys.shards[s].epoch + 1
    ensures forall d :: 0 <= d < cfg.shards ==> !Arrived(sys, d) && s !in sys.shards[d].meta.collected
    ensures forall d, e, i :: 0 <= d < cfg.shards && e in sys.shards[d].meta.early && 0 <= i < |sys.shards[d].meta.early[e]|
              ==> sys.shards[d].meta.early[e][i].src != s
    ensures forall i :: 0 <= i < |sys.net| && sys.net[i].AccountMigration? ==> sys.net[i].m.src != s
  {
    assert LeaderOk(cfg, sys, s);
    forall d | 0 <= d < cfg.shards ensures !Arrived(sys, d) && s !in sys.shards[d].meta.collected {
      assert LeaderOk(cfg, sys, d);
      assert Arrived(sys, d) ==> Frozen(sys, s);
    }
    forall d, e, i | 0 <= d < cfg.shards && e in sys.shards[d].meta.early && 0 <= i < |sys.shards[d].meta.early[e]|
      ensures sys.shards[d].meta.early[e][i].src != s
    {
      assert LeaderOk(cfg, sys, d);
      assert MigrationOk(cfg, sys, sys.shards[d].meta.early[e][i]);
    }
    forall i | 0 <= i < |sys.net| && sys.net[i].AccountMigration? ensures sys.net[i].m.src != s {
      assert MsgOk(cfg, sys, sys.net[i]);
    }
  }

  lemma {:induction false} FullSet(s: set<int>, n: nat)
    requires forall x :: x in s ==> 0 <= x < n
    ensures |s| <= n
    ensures |s| == n ==> forall x :: 0 <= x < n ==> x in s
  {
    if n > 0 {
      var rest := s - {n - 1};
      FullSet(rest, n - 1);
      if n - 1 in s {
        assert s == rest + {n - 1};
      } else {
        assert s == rest;
      }
    } else {
      assert forall x :: x !in s;
    }
  }

  /** Sending the accounts freezes the shard; the messages are complete and unheard of. */
  lemma SendAccountsOk(cfg: Cfg, sys: Sys, s: Shard)
    requires Inv(cfg, sys) && s < cfg.shards && sys.shards[s].proposal.None? && sys.shards[s].meta.ready
    requires !OwnOnItsWay(sys, s)
    ensures var (l', out) := SendAccounts(cfg, s, sys.shards[s]);
            Inv(cfg, Apply(sys, s, Effect(l', out, 0, 0))) && l'.st == sys.shards[s].st && l'.meta == sys.shards[s].meta && l'.proposal.None?
  {
    var l := sys.shards[s];
    var (l', out) := SendAccounts(cfg, s, sys.shards[s]);
    var sys' := Apply(sys, s, Effect(l', out, 0, 0));
    if s in l.meta.collected {
      assert sys'.net == sys.net && sys'.shards == sys.shards;
      assert sys' == sys;
    } else {
      QuietCarries(cfg, sys, sys', s);
      ShapeCarries(cfg, sys, sys');
      SendAccountsLeaders(cfg, sys, s);
      SendAccountsNet(cfg, sys, s);
    }
  }

  lemma SendAccountsLeaders(cfg: Cfg, sys: Sys, s: Shard)
    requires Inv(cfg, sys) && s < cfg.shards && sys.shards[s].proposal.None? && sys.shards[s].meta.ready
    requires s !in sys.shards[s].meta.collected
    ensures var (l', out) := SendAccounts(cfg, s, sys.shards[s]);
            var sys' := Apply(sys, s, Effect(l', out, 0, 0));
            forall t :: 0 <= t < cfg.shards ==> LeaderOk(cfg, sys', t)
  {
    var l := sys.shards[s];
    var (l', out) := SendAccounts(cfg, s, sys.shards[s]);
    var sys' := Apply(sys, s, Effect(l', out, 0, 0));
    QuietCarries(cfg, sys, sys', s);
    assert sys'.net[|sys.net| + s] == AccountMigration(OutMsg(l.st, cfg.shards, s, l.meta.epoch, l.meta.modified, s));
    assert OwnOnItsWay(sys', s);
    forall t | 0 <= t < cfg.shards ensures LeaderOk(cfg, sys', t) {
      assert LeaderOk(cfg, sys, t);
      if t != s {
        if OwnOnItsWay(sys, t) { OwnStaysOnAppend(sys.net, out, t); }
        LeaderCarries(cfg, sys, sys', t);
      } else {
        SentLeader(cfg, sys, sys', s);
      }
    }
  }

  lemma SendAccountsNet(cfg: Cfg, sys: Sys, s: Shard)
    requires Inv(cfg, sys) && s < cfg.shards && sys.shards[s].proposal.None? && sys.shards[s].meta.ready
    requires s !in sys.shards[s].meta.collected && !OwnOnItsWay(sys, s)
    ensures var (l', out) := SendAccounts(cfg, s, sys.shards[s]);
            var sys' := Apply(sys, s, Effect(l', out, 0, 0));
            (forall i :: 0 <= i < |sys'.net| ==> MsgOk(cfg, sys', sys'.net[i]) && Unheard(sys', sys'.net[i])) && NoClash(sys'.net)
  {
    var l := sys.shards[s];
    var (l', out) := SendAccounts(cfg, s, sys.shards[s]);
    var sys' := Apply(sys, s, Effect(l', out, 0, 0));
    assert LeaderOk(cfg, sys, s);
    var taken := l.pool[..Min(MIGRATED_TX_NUM, |l.pool|)];
    var lists := ByShard(taken, MovesTo(l.meta.modified), cfg.shards);
    var mid := sys.(net := sys.net + OutMsgs(l.st, cfg.shards, s, l.meta.epoch, l.meta.modified), shards := sys'.shards);
    assert sys'.net == mid.net + Deliveries(lists);
    QuietCarries(cfg, sys, mid, s);
    OutMsgsOk(cfg, sys, mid, s);
    forall i | 0 <= i < |mid.net| ensures MsgOk(cfg, sys', mid.net[i]) && Unheard(sys', mid.net[i]) {
      SameButNet(cfg, mid, sys', mid.net[i]);
    }
    ByShardOk(cfg, taken, MovesTo(l.meta.modified));
    AppendTxs(cfg, mid, sys', lists);
  }

  lemma SameButNet(cfg: Cfg, sys: Sys, sys': Sys, m: Msg)
    requires cfg.shards > 0 && sys'.sup == sys.sup && sys'.prev == sys.prev && sys'.shards == sys.shards
    requires MsgOk(cfg, sys, m) && Unheard(sys, m)
    ensures MsgOk(cfg, sys', m) && Unheard(sys', m)
  {
  }

  lemma SentLeader(cfg: Cfg, sys: Sys, sys': Sys, s: Shard)
    requires Shape(cfg, sys) && s < cfg.shards && LeaderOk(cfg, sys, s) && sys.shards[s].meta.ready && sys.shards[s].proposal.None?
    requires Carries(cfg, sys, sys') && sys'.sup == sys.sup
    requires sys'.shards[s] == SendAccounts(cfg, s, sys.shards[s]).0 && sys'.shards[s].snapped
    requires OwnOnItsWay(sys', s)
    ensures LeaderOk(cfg, sys', s)
  {
    var meta := sys.shards[s].meta;
    assert MetaAt(cfg, sys, s);
    CurrentHasNoEarly(cfg, sys, s);
    assert Arrived(sys, s) <==> Arrived(sys', s);
    var pool := sys.shards[s].pool;
    var taken := pool[..Min(MIGRATED_TX_NUM, |pool|)];
    if s !in meta.collected {
      forall tx | tx in pool[|taken|..] + Pick(taken, Stays(meta.modified)) ensures TxOk(cfg, tx) {
        PickMembers(taken, Stays(meta.modified), tx);
      }
    }
  }

  /** The state with the account messages out, before the pooled transactions follow. */
  ghost predicate AccountsOut(cfg: Cfg, sys: Sys, mid: Sys, s: Shard)
    requires cfg.shards > 0 && s < |sys.shards|
  {
    var l := sys.shards[s];
    mid == sys.(net := sys.net + OutMsgs(l.st, cfg.shards, s, l.meta.epoch, l.meta.modified),
                shards := sys.shards[s := SendAccounts(cfg, s, l).0])
  }

  lemma OutMsgsOk(cfg: Cfg, sys: Sys, mid: Sys, s: Shard)
    requires Inv(cfg, sys) && s < cfg.shards && sys.shards[s].meta.ready
    requires s !in sys.shards[s].meta.collected && !OwnOnItsWay(sys, s)
    requires AccountsOut(cfg, sys, mid, s) && Carries(cfg, sys, mid)
    ensures forall i :: 0 <= i < |mid.net| ==> MsgOk(cfg, mid, mid.net[i]) && Unheard(mid, mid.net[i])
    ensures NoClash(mid.net)
  {
    forall i | 0 <= i < |mid.net| ensures MsgOk(cfg, mid, mid.net[i]) && Unheard(mid, mid.net[i]) {
      if i < |sys.net| {
        assert mid.net[i] == sys.net[i] && MsgOk(cfg, sys, sys.net[i]) && Unheard(sys, sys.net[i]);
        MsgCarries(cfg, sys, mid, sys.net[i]);
      } else {
        FreshOutMsg(cfg, sys, mid, s, i - |sys.net|);
      }
    }
    NotSentYet(cfg, sys, s);
    forall i, j | 0 <= i < j < |mid.net| ensures !Clash(mid.net[i], mid.net[j]) {
      if j < |sys.net| {
        assert mid.net[i] == sys.net[i] && mid.net[j] == sys.net[j];
      } else if i < |sys.net| {
        assert mid.net[i] == sys.net[i];
      }
    }
  }

  lemma FreshOutMsg(cfg: Cfg, sys: Sys, mid: Sys, s: Shard, d: Shard)
    requires Inv(cfg, sys) && s < cfg.shards && d < cfg.shards && sys.shards[s].meta.ready
    requires s !in sys.shards[s].meta.collected && !OwnOnItsWay(sys, s)
    requires AccountsOut(cfg, sys, mid, s) && Carries(cfg, sys, mid)
    ensures |mid.net| == |sys.net| + cfg.shards
    ensures MsgOk(cfg, mid, mid.net[|sys.net| + d]) && Unheard(mid, mid.net[|sys.net| + d])
  {
    var l := sys.shards[s];
    NotSentYet(cfg, sys, s);
    OutMsgOk(cfg, sys, s, d);
    assert mid.net[|sys.net| + d] == AccountMigration(OutMsg(l.st, cfg.shards, s, l.meta.epoch, l.meta.modified, d));
    assert mid.shards[s].st == l.st && mid.shards[d].meta == sys.shards[d].meta;
    assert Owed(cfg, mid, s, d) == Owed(cfg, sys, s, d);
  }

  lemma OutMsgOk(cfg: Cfg, sys: Sys, s: Shard, d: Shard)
    requires Inv(cfg, sys) && s < cfg.shards && d < cfg.shards && sys.shards[s].meta.ready && !Arrived(sys, s)
    ensures OutMsg(sys.shards[s].st, cfg.shards, s, sys.shards[s].meta.epoch, sys.shards[s].meta.modified, d).states == Owed(cfg, sys, s, d)
  {
    var l := sys.shards[s];
    assert LeaderOk(cfg, sys, s) && LocationsAt(cfg, sys, s);
    var m, o := OutMsg(l.st, cfg.shards, s, l.meta.epoch, l.meta.modified, d).states, Owed(cfg, sys, s, d);
    forall a: Acct ensures a in m <==> a in o {
      assert LocOf(l.st.loc, a, cfg.shards) == Before(cfg, sys, a);
    }
    forall a | a in m ensures m[a] == o[a] {
    }
  }

  lemma ProposeMigrationOk(cfg: Cfg, sys: Sys, s: Shard, moved: map<Acct, Migrated>)
    requires Inv(cfg, sys) && Enabled(cfg, sys, Propose(s, moved)) && sys.shards[s].meta.ready
    ensures Inv(cfg, Apply(sys, s, ProposeMigration(cfg, s, sys.shards[s], moved)))
  {
    var (l', out) := SendAccounts(cfg, s, sys.shards[s]);
    var mid := Apply(sys, s, Effect(l', out, 0, 0));
    SendAccountsOk(cfg, sys, s);
    var sys' := Apply(sys, s, ProposeMigration(cfg, s, sys.shards[s], moved));
    hide LeaderOk, MsgOk, Unheard, NoClash;
    if |l'.meta.collected| == cfg.shards {
      assert sys' == Apply(mid, s, Effect(l'.(proposal := Some(MigrationContent(moved))), [], 0, 0)) by {
        assert mid.net + [] == mid.net;
      }
      ProposedMigrationOk(cfg, mid, s, moved);
    } else {
      assert sys' == mid;
    }
  }

  lemma ProposedMigrationOk(cfg: Cfg, sys: Sys, s: Shard, moved: map<Acct, Migrated>)
    requires Inv(cfg, sys) && s < cfg.shards && sys.shards[s].meta.ready
    requires |sys.shards[s].meta.collected| == cfg.shards && IsMerge(sys.shards[s].meta, moved)
    ensures Inv(cfg, Apply(sys, s, Effect(sys.shards[s].(proposal := Some(MigrationContent(moved))), [], 0, 0)))
  {
    var sys' := Apply(sys, s, Effect(sys.shards[s].(proposal := Some(MigrationContent(moved))), [], 0, 0));
    assert sys'.net == sys.net;
    QuietCarries(cfg, sys, sys', s);
    ShapeCarries(cfg, sys, sys');
    assert LeaderOk(cfg, sys, s) && MetaAt(cfg, sys, s);
    FullSet(sys.shards[s].meta.collected.Keys, cfg.shards);
    OthersAfterSending(cfg, sys, sys', [], s);
    LeaderCarriesExcept(cfg, sys, sys', s);
    NetBeforeSending(cfg, sys, sys');
  }

  // ----------------------------------------------------------------------- commits

  lemma CommitTxsOk(cfg: Cfg, sys: Sys, s: Shard, txs: seq<Tx>)
    requires Inv(cfg, sys) && s < cfg.shards && sys.shards[s].proposal == Some(TxContent(txs))
    ensures Inv(cfg, Apply(sys, s, CommitTxs(cfg, s, sys.shards[s], txs)))
  {
    var l := sys.shards[s];
    var e := CommitTxs(cfg, s, l, txs);
    var sys' := Apply(sys, s, e);
    assert LeaderOk(cfg, sys, s) && ProposalAt(cfg, sys, s);
    CommitTxsCarries(cfg, sys, s, txs);
    ShapeCarries(cfg, sys, sys');
    OthersAfterSending(cfg, sys, sys', e.out, s);
    CommittedLeader(cfg, sys, sys', s);
    CommitTxsNet(cfg, sys, s, txs);
  }

  /** A committed leader: state and proposal changed, locations and metadata as before. */
  lemma CommittedLeader(cfg: Cfg, sys: Sys, sys': Sys, s: Shard)
    requires Shape(cfg, sys) && s < cfg.shards && LeaderOk(cfg, sys, s)
    requires Carries(cfg, sys, sys') && sys'.sup == sys.sup
    requires sys'.shards[s] == sys.shards[s].(st := sys'.shards[s].st, proposal := None)
    requires sys'.shards[s].st.loc == sys.shards[s].st.loc && NoEmptyAccount(sys'.shards[s].st.db)
    requires OwnOnItsWay(sys, s) ==> OwnOnItsWay(sys', s)
    ensures LeaderOk(cfg, sys', s)
  {
    var meta := sys.shards[s].meta;
    assert MetaAt(cfg, sys, s);
    forall e, i | e in meta.early && 0 <= i < |meta.early[e]|
      ensures MigrationOk(cfg, sys', meta.early[e][i])
    {
      MigrationCarries(cfg, sys, sys', meta.early[e][i]);
    }
    assert Arrived(sys, s) <==> Arrived(sys', s);
  }

  /** What a shard owes depends only on the placements and on the states of the accounts it sends. */
  lemma OwedSame(cfg: Cfg, sys: Sys, sys': Sys, s: Shard, d: Shard)
    requires cfg.shards > 0 && s < |sys.shards| == |sys'.shards|
    requires sys'.prev == sys.prev && sys'.sup == sys.sup
    requires forall a :: a in Moving(cfg, sys) && Before(cfg, sys, a) == s && Moving(cfg, sys)[a] == d ==>
               Read(sys'.shards[s].st.db, a) == Read(sys.shards[s].st.db, a)
    ensures Owed(cfg, sys', s, d) == Owed(cfg, sys, s, d)
  {
  }

  /** A block never touches an account that is on its way to another shard. */
  lemma CommitTxsCarries(cfg: Cfg, sys: Sys, s: Shard, txs: seq<Tx>)
    requires Inv(cfg, sys) && s < cfg.shards && sys.shards[s].proposal == Some(TxContent(txs))
    ensures Carries(cfg, sys, Apply(sys, s, CommitTxs(cfg, s, sys.shards[s], txs)))
  {
    var l := sys.shards[s];
    var sys' := Apply(sys, s, CommitTxs(cfg, s, l, txs));
    assert LeaderOk(cfg, sys, s) && ProposalAt(cfg, sys, s);
    forall d | 0 <= d < |sys.shards| && Frozen(sys, s) ensures Owed(cfg, sys', s, d) == Owed(cfg, sys, s, d) {
      forall a | a in Moving(cfg, sys) && Before(cfg, sys, a) == s ensures Read(sys'.shards[s].st.db, a) == Read(l.st.db, a) {
        OwedUntouched(cfg, sys, s, txs, a);
      }
      OwedSame(cfg, sys, sys', s, d);
    }
    OthersOwe(cfg, sys, sys', s);
  }

  lemma OthersOwe(cfg: Cfg, sys: Sys, sys': Sys, s: Shard)
    requires cfg.shards > 0 && |sys.shards| == |sys'.shards| && sys'.prev == sys.prev && sys'.sup == sys.sup
    requires forall t :: 0 <= t < |sys.shards| && t != s ==> sys'.shards[t] == sys.shards[t]
    ensures forall t, d :: 0 <= t < |sys.shards| && 0 <= d < |sys.shards| && t != s ==> Owed(cfg, sys', t, d) == Owed(cfg, sys, t, d)
  {
  }

  lemma OwedUntouched(cfg: Cfg, sys: Sys, s: Shard, txs: seq<Tx>, a: Acct)
    requires Inv(cfg, sys) && s < cfg.shards && sys.shards[s].proposal == Some(TxContent(txs)) && Frozen(sys, s)
    requires a in Moving(cfg, sys) && Before(cfg, sys, a) == s
    ensures Read(CommitTxs(cfg, s, sys.shards[s], txs).leader.st.db, a) == Read(sys.shards[s].st.db, a)
  {
    var l := sys.shards[s];
    assert LeaderOk(cfg, sys, s) && ProposalAt(cfg, sys, s) && LocationsAt(cfg, sys, s);
    assert LocOf(l.st.loc, a, cfg.shards) == Now(cfg, sys, a) != s;
    BlockLeavesOthers(l.st.db, LocationsInTxs(l.st.loc, cfg.shards, txs), s, txs, a);
  }

  lemma CommitTxsNet(cfg: Cfg, sys: Sys, s: Shard, txs: seq<Tx>)
    requires Inv(cfg, sys) && s < cfg.shards && sys.shards[s].proposal == Some(TxContent(txs))
    ensures var sys' := Apply(sys, s, CommitTxs(cfg, s, sys.shards[s], txs));
            (forall i :: 0 <= i < |sys'.net| ==> MsgOk(cfg, sys', sys'.net[i]) && Unheard(sys', sys'.net[i])) && NoClash(sys'.net)
  {
    var l := sys.shards[s];
    var sys' := Apply(sys, s, CommitTxs(cfg, s, l, txs));
    assert LeaderOk(cfg, sys, s) && ProposalAt(cfg, sys, s) && LocationsAt(cfg, sys, s);
    hide LeaderOk;
    CommitTxsCarries(cfg, sys, s, txs);
    var r1 := Pick(txs, OfStage(Relay1));
    var info := BlockInfo(s, l.epoch, Pick(txs, OfStage(Undetermined)), r1, Pick(txs, OfStage(Relay2)));
    var dest := RecipientShard(l.st.loc, cfg.shards);
    var lists := ByShard(Relay2Legs(r1), dest, cfg.shards);
    var mid := sys'.(net := sys.net + [info]);
    assert sys'.net == mid.net + Deliveries(lists);
    NetBeforeSending(cfg, sys, sys');
    forall i | 0 <= i < |mid.net| ensures MsgOk(cfg, sys', mid.net[i]) && Unheard(sys', mid.net[i]) {
      if i < |sys.net| { assert mid.net[i] == sys.net[i]; }
    }
    forall i, j | 0 <= i < j < |mid.net| ensures !Clash(mid.net[i], mid.net[j]) {
      if j < |sys.net| { assert mid.net[i] == sys.net[i] && mid.net[j] == sys.net[j]; }
    }
    LegsOk(cfg, l.st.db, LocationsInTxs(l.st.loc, cfg.shards, txs), s, txs);
    ByShardOk(cfg, Relay2Legs(r1), dest);
    AppendTxs(cfg, mid, sys', lists);
  }

  /** The relay-2 legs of an executed block are coherent: their values have been debited. */
  lemma LegsOk(cfg: Cfg, db: StateDB, addrLoc: map<Acct, Shard>, s: Shard, txs: seq<Tx>)
    requires AllRunHere(txs, addrLoc, s) && TxsResult(db, addrLoc, s, txs).Some?
    requires forall tx :: tx in txs ==> tx.Sender() < cfg.accounts && tx.Recipient() < cfg.accounts
    ensures TxsOk(cfg, Relay2Legs(Pick(txs, OfStage(Relay1))))
  {
    BlockMovesItsEffects(db, addrLoc, s, txs, 0);
    var r1 := Pick(txs, OfStage(Relay1));
    forall tx | tx in r1 ensures tx in txs && tx.stage == Relay1 && Coherent(tx) && FitsUInt256(tx.Value()) {
      PickMembers(txs, OfStage(Relay1), tx);
      var i :| 0 <= i < |txs| && txs[i] == tx;
      assert RunsHere(txs[i], addrLoc, s);
    }
    LegsAre(r1);
    forall leg | leg in Relay2Legs(r1) ensures TxOk(cfg, leg) {
      var tx :| tx in r1 && leg == AsRelay2(tx);
    }
  }

  lemma {:induction false} LegsAre(r1: seq<Tx>)
    ensures forall leg :: leg in Relay2Legs(r1) ==> exists tx :: tx in r1 && leg == AsRelay2(tx)
  {
    if r1 != [] {
      LegsAre(r1[..|r1| - 1]);
      assert r1[|r1| - 1] in r1;
      forall leg | leg in Relay2Legs(r1) ensures exists tx :: tx in r1 && leg == AsRelay2(tx) {
        if leg in Relay2Legs(r1[..|r1| - 1]) {
          var tx :| tx in r1[..|r1| - 1] && leg == AsRelay2(tx);
          assert tx in r1;
        }
      }
    }
  }

  /** A migration block commits only when every shard is frozen; with it the shard arrives. */
  lemma CommitMigrationOk(cfg: Cfg, sys: Sys, s: Shard, moved: map<Acct, Migrated>)
    requires Inv(cfg, sys) && s < cfg.shards && sys.shards[s].proposal == Some(MigrationContent(moved))
    ensures Inv(cfg, Apply(sys, s, CommitMigration(cfg, s, sys.shards[s], moved)))
    ensures forall t :: 0 <= t < cfg.shards ==> Frozen(sys, t)
  {
    var l := sys.shards[s];
    var sys' := Apply(sys, s, CommitMigration(cfg, s, l, moved));
    assert sys'.net == sys.net;
    AllHeard(cfg, sys, s, moved);
    CommitMigrationCarries(cfg, sys, s, moved);
    forall t | 0 <= t < cfg.shards ensures LeaderOk(cfg, sys', t) {
      assert LeaderOk(cfg, sys, t);
      if t != s {
        LeaderCarries(cfg, sys, sys', t);
      } else {
        ArrivedLeader(cfg, sys, s, moved);
      }
    }
    forall i | 0 <= i < |sys'.net| ensures MsgOk(cfg, sys', sys'.net[i]) && Unheard(sys', sys'.net[i]) {
      assert MsgOk(cfg, sys, sys.net[i]) && Unheard(sys, sys.net[i]);
      MsgCarries(cfg, sys, sys', sys.net[i]);
    }
  }

  /** With everything heard, every shard is frozen and nothing more is under way to this one. */
  lemma AllHeard(cfg: Cfg, sys: Sys, s: Shard, moved: map<Acct, Migrated>)
    requires Inv(cfg, sys) && s < cfg.shards && sys.shards[s].proposal == Some(MigrationContent(moved))
    ensures sys.shards[s].meta.epoch == sys.sup.epoch == sys.shards[s].epoch + 1
    ensures forall t :: 0 <= t < cfg.shards ==> Frozen(sys, t)
    ensures forall i :: 0 <= i < |sys.net| ==>
              (sys.net[i].AccountMigration? ==> sys.net[i].m.dest != s) && (sys.net[i].RepartitionStart? ==> sys.net[i].to != s)
  {
    assert LeaderOk(cfg, sys, s) && ProposalAt(cfg, sys, s) && MetaAt(cfg, sys, s);
    forall i | 0 <= i < |sys.net|
      ensures (sys.net[i].AccountMigration? ==> sys.net[i].m.dest != s) && (sys.net[i].RepartitionStart? ==> sys.net[i].to != s)
    {
      assert MsgOk(cfg, sys, sys.net[i]) && Unheard(sys, sys.net[i]);
    }
  }

  /** The merged states: what the previous owner has, for every account that comes here. */
  lemma MergedStates(cfg: Cfg, sys: Sys, s: Shard, moved: map<Acct, Migrated>, a: Acct)
    requires Inv(cfg, sys) && s < cfg.shards && sys.shards[s].proposal == Some(MigrationContent(moved))
    ensures a in moved <==> a in Moving(cfg, sys)
    ensures a in moved ==> moved[a].location == Now(cfg, sys, a)
    ensures a in moved && moved[a].location == s ==>
              Before(cfg, sys, a) < cfg.shards && Before(cfg, sys, a) != s &&
              moved[a].state == Read(sys.shards[Before(cfg, sys, a)].st.db, a)
  {
    var l := sys.shards[s];
    assert LeaderOk(cfg, sys, s) && ProposalAt(cfg, sys, s) && MetaAt(cfg, sys, s);
    if a in moved && moved[a].location == s {
      var src := Before(cfg, sys, a);
      assert src in l.meta.collected && l.meta.collected[src] == Owed(cfg, sys, src, s);
      assert a in l.meta.collected[src];
      assert IsMergedState(l.meta.collected, a, moved[a].state);
      forall t | t in l.meta.collected && a in l.meta.collected[t] ensures t == src {
        assert l.meta.collected[t] == Owed(cfg, sys, t, s);
      }
    }
  }

  /** Installing leaves every account alone that does not come to this shard. */
  lemma InstallLeavesOthers(db: StateDB, s: Shard, moved: map<Acct, Migrated>, a: Acct)
    requires NoEmptyAccount(db) && (a in moved ==> moved[a].location != s)
    ensures Read(Prune(Install(db, s, moved)), a) == Read(db, a)
  {
  }

  lemma CommitMigrationCarries(cfg: Cfg, sys: Sys, s: Shard, moved: map<Acct, Migrated>)
    requires Inv(cfg, sys) && s < cfg.shards && sys.shards[s].proposal == Some(MigrationContent(moved))
    ensures Carries(cfg, sys, Apply(sys, s, CommitMigration(cfg, s, sys.shards[s], moved)))
  {
    var l := sys.shards[s];
    var sys' := Apply(sys, s, CommitMigration(cfg, s, l, moved));
    AllHeard(cfg, sys, s, moved);
    assert LeaderOk(cfg, sys, s);
    hide LeaderOk;
    forall d | 0 <= d < |sys.shards| ensures Owed(cfg, sys', s, d) == Owed(cfg, sys, s, d) {
      OwedAfterMigration(cfg, sys, s, moved, d);
    }
    OthersOwe(cfg, sys, sys', s);
  }

  lemma OwedAfterMigration(cfg: Cfg, sys: Sys, s: Shard, moved: map<Acct, Migrated>, d: Shard)
    requires Inv(cfg, sys) && s < cfg.shards && sys.shards[s].proposal == Some(MigrationContent(moved))
    ensures Owed(cfg, Apply(sys, s, CommitMigration(cfg, s, sys.shards[s], moved)), s, d) == Owed(cfg, sys, s, d)
  {
    var sys' := Apply(sys, s, CommitMigration(cfg, s, sys.shards[s], moved));
    assert LeaderOk(cfg, sys, s);
    hide LeaderOk;
    forall a | a in Moving(cfg, sys) && Before(cfg, sys, a) == s
      ensures Read(sys'.shards[s].st.db, a) == Read(sys.shards[s].st.db, a)
    {
      MergedStates(cfg, sys, s, moved, a);
      InstallLeavesOthers(sys.shards[s].st.db, s, moved, a);
    }
    OwedSame(cfg, sys, sys', s, d);
  }

  lemma ArrivedLeader(cfg: Cfg, sys: Sys, s: Shard, moved: map<Acct, Migrated>)
    requires Inv(cfg, sys) && s < cfg.shards && sys.shards[s].proposal == Some(MigrationContent(moved))
    ensures LeaderOk(cfg, Apply(sys, s, CommitMigration(cfg, s, sys.shards[s], moved)), s)
  {
    var l := sys.shards[s];
    var sys' := Apply(sys, s, CommitMigration(cfg, s, l, moved));
    var l' := sys'.shards[s];
    AllHeard(cfg, sys, s, moved);
    assert LeaderOk(cfg, sys, s) && LocationsAt(cfg, sys, s);
    CurrentHasNoEarly(cfg, sys, s);
    assert Arrived(sys', s);
    forall a: Acct ensures LocOf(l'.st.loc, a, cfg.shards) == Now(cfg, sys', a) && (a in l'.st.loc ==> l'.st.loc[a] < cfg.shards) {
      MergedStates(cfg, sys, s, moved, a);
      assert LocOf(l.st.loc, a, cfg.shards) == Before(cfg, sys, a);
      if a !in moved { assert Before(cfg, sys, a) == Now(cfg, sys, a); }
    }
    assert LocationsAt(cfg, sys', s);
    assert MetaAt(cfg, sys', s);
  }

  // -------------------------------------------------------------------- every step

  /** The invariant holds in every reachable state. */
  lemma StepKeepsInv(cfg: Cfg, sys: Sys, act: Action)
    requires Inv(cfg, sys) && Enabled(cfg, sys, act)
    ensures Inv(cfg, Next(cfg, sys, act))
  {
    match act
    case Inject(txs) => InjectOk(cfg, sys, txs);
    case Repartition(placement) => RepartitionOk(cfg, sys, placement);
    case Info(i) => HandleInfoOk(cfg, sys, i);
    case Deliver(i) =>
      match sys.net[i] {
        case ReceiveTxs(_, _) => DeliverTxs(cfg, sys, i);
        case RepartitionStart(_, _, _) => DeliverStart(cfg, sys, i);
        case AccountMigration(_) => DeliverMigration(cfg, sys, i);
      }
    case Propose(s, moved) =>
      if sys.shards[s].meta.ready {
        ProposeMigrationOk(cfg, sys, s, moved);
      } else {
        ProposeTxsOk(cfg, sys, s);
      }
    case Commit(s) =>
      match sys.shards[s].proposal.value {
        case TxContent(txs) => CommitTxsOk(cfg, sys, s, txs);
        case MigrationContent(moved) => CommitMigrationOk(cfg, sys, s, moved);
      }
  }

  lemma {:induction false} RunKeepsInv(cfg: Cfg, acts: seq<Action>)
    requires cfg.shards > 0 && Run(cfg, acts).Some?
    ensures Inv(cfg, Run(cfg, acts).value)
  {
    if acts == [] {
      InitHolds(cfg);
    } else {
      RunKeepsInv(cfg, acts[..|acts| - 1]);
      StepKeepsInv(cfg, Run(cfg, acts[..|acts| - 1]).value, acts[|acts| - 1]);
    }
  }
}
