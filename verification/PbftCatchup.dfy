/** Catching up over whole runs: when it is exact, when height and round stay in step, and when it is due. */
module PbftCatchup {
  import opened Prelude
  import opened Accounts
  import opened ViewSeqs
  import opened MsgPools
  import opened PbftMeta
  import opened PbftSystem
  import opened PbftAgreement
  import opened PbftRuns
  import opened PbftChains
  import opened Chain

  // ------------------------------------------------------------------ under a correct leader

  lemma LinedInStep(cfg: Config, net: Net, line: seq<Block>, i: nat)
    requires Lined(cfg, net, line) && i < |net.nodes| && i !in cfg.faulty
    ensures InStep(net.nodes[i]) && net.nodes[i].chain.Height() == |net.nodes[i].chain.history|
  {
    assert OnLine(cfg, net, line, net.nodes[i]);
    HeightOfCut(cfg, line, net.nodes[i].chain);
  }

  /**
   * With a correct leader and answers that fit, every correct node is in step after every event, its chain is the one
   * its state comes from, and of two correct nodes one has a prefix of the other's chain, blocks and all.
   */
  lemma CorrectLeaderKeepsStep(cfg: Config, es: seq<Event>, net: Net, i: nat, j: nat)
    requires IsConfig(cfg) && 0 !in cfg.faulty && Run(cfg, es) == Some(net) && Throughout(cfg, es, Fitting(cfg))
    requires Correct(cfg, net, i) && Correct(cfg, net, j)
    ensures AllInStep(cfg, net)
    ensures IsProper(net.nodes[i].chain.history)
    ensures Replayed(EMPTY_STATE, cfg.shardNum, cfg.shard, net.nodes[i].chain.history) == Some(net.nodes[i].chain.state)
    ensures net.nodes[i].chain.history <= net.nodes[j].chain.history || net.nodes[j].chain.history <= net.nodes[i].chain.history
  {
    var line := RunLined(cfg, es);
    forall k | 0 <= k < |net.nodes| && k !in cfg.faulty ensures InStep(net.nodes[k]) {
      LinedInStep(cfg, net, line, k);
    }
    assert OnLine(cfg, net, line, net.nodes[i]) && OnLine(cfg, net, line, net.nodes[j]);
  }

  /**
   * Between a request and its answer anything may have happened, to the leader, to the node and to the network. The
   * answer is adopted and leaves the node with exactly the chain and state the leader had as it answered if and only
   * if the node is still at the height it asked from and the leader was not below it; that is, if the answer fits.
   */
  lemma CatchupExactlyWhen(cfg: Config, es: seq<Event>, net: Net, a: Answer)
    requires IsConfig(cfg) && 0 !in cfg.faulty && Run(cfg, es) == Some(net) && Throughout(cfg, es, Fitting(cfg))
    requires Enabled(cfg, net, Receive(a)) && IsWanted(net.nodes[a.dest], a.resp)
    ensures var x := net.nodes[a.dest];
            var exact := Adopts(cfg, x, a.resp) && ReceivedNode(cfg, x, a.resp).chain == a.source;
            && (exact <==> x.chain.Height() == a.start - 1 <= a.source.Height())
            && (exact <==> Fits(x, a.resp))
    ensures a.source.history <= net.nodes[0].chain.history && a.resp.next.seq_ == a.source.Height() - 1
  {
    var line := RunLined(cfg, es);
    var x := net.nodes[a.dest];
    assert OnLine(cfg, net, line, x) && OnLine(cfg, net, line, net.nodes[0]) && AnswersLine(cfg, net, line, a);
    HeightOfCut(cfg, line, x.chain);
    HeightOfCut(cfg, line, a.source);
    if Fits(x, a.resp) {
      FittingAnswer(cfg, net, a, line);
    } else {
      ExtendedReplays(x.chain, cfg.shardNum, cfg.shard, a.resp.blocks);
    }
  }

  // --------------------------------------------------------------------- in any run at all

  /** The node decides in this event. */
  ghost predicate IsDecision(net: Net, e: Event) {
    e.Step? && e.i < |net.nodes| && net.nodes[e.i].m.stage == StageCommit && net.nodes[e.i].m.proposal.Some?
    && |net.nodes[e.i].m.commitSet| >= Quorum(net.nodes[e.i].m)
  }

  /** A decided block executes and carries the height of its round. */
  ghost predicate GoodDecision(cfg: Config, a: Node)
    requires cfg.shardNum > 0 && a.m.proposal.Some?
  {
    var pp := a.m.proposal.value;
    Applied(a.chain.state, cfg.shardNum, cfg.shard, pp.block.header.content).Some? && pp.block.header.number == pp.at.seq_ + 2
  }

  /** How many blocks of the answer execute, one after the other. */
  ghost function Executing(cfg: Config, a: Node, blocks: seq<Block>): int
    requires cfg.shardNum > 0
  {
    |ExtendedAll(a.chain, cfg.shardNum, cfg.shard, blocks).0.history| - |a.chain.history|
  }

  /**
   * When all blocks of an answer execute, the last one carries the height of the round it is taken for, or without
   * any block the round is the present one. When one fails, it is the first, or the one before it has the present height.
   */
  ghost predicate GoodAnswer(cfg: Config, a: Node, resp: CatchupResp)
    requires cfg.shardNum > 0
  {
    var n := Executing(cfg, a, resp.blocks);
    if ExtendedAll(a.chain, cfg.shardNum, cfg.shard, resp.blocks).1 then
      if resp.blocks == [] then resp.next.seq_ == a.m.cur.seq_
      else resp.blocks[|resp.blocks| - 1].header.number == resp.next.seq_ + 1
    else
      0 < n <= |resp.blocks| ==> resp.blocks[n - 1].header.number == a.m.cur.seq_ + 1
  }

  lemma AnswerHeight(cfg: Config, a: Node, resp: CatchupResp)
    requires cfg.shardNum > 0 && InStep(a)
    ensures var (chain, ok) := ExtendedAll(a.chain, cfg.shardNum, cfg.shard, resp.blocks);
            GoodAnswer(cfg, a, resp) <==> chain.Height() == (if ok then resp.next.seq_ else a.m.cur.seq_) + 1
  {
    ExtendedReplays(a.chain, cfg.shardNum, cfg.shard, resp.blocks);
    var (chain, ok) := ExtendedAll(a.chain, cfg.shardNum, cfg.shard, resp.blocks);
    if !ok {
      var n :| 0 <= n < |resp.blocks| && chain.history == a.chain.history + resp.blocks[..n];
      assert n == Executing(cfg, a, resp.blocks);
    }
  }

  ghost function Good(cfg: Config): Test {
    (net: Net, e: Event) =>
      cfg.shardNum > 0 &&
      (IsDecision(net, e) ==> GoodDecision(cfg, net.nodes[e.i])) &&
      (e.Receive? && Correct(cfg, net, e.a.dest) && IsWanted(net.nodes[e.a.dest], e.a.resp) ==> GoodAnswer(cfg, net.nodes[e.a.dest], e.a.resp))
  }

  ghost predicate Shaped(cfg: Config, net: Net) {
    |net.nodes| == cfg.n && forall i :: 0 <= i < cfg.n && i !in cfg.faulty ==> RoundShape(net, net.nodes[i].m)
  }

  lemma LengthStays(cfg: Config, net: Net, e: Event)
    requires Enabled(cfg, net, e)
    ensures |Next(cfg, net, e).nodes| == |net.nodes|
  {
    hide Curated, HeardPreprepare, HeardPrepare, HeardCommit, Extended, ReceivedNode, Proposed, Replied, IsChoice;
  }

  lemma OtherRound(cfg: Config, net: Net, e: Event, i: nat)
    requires Enabled(cfg, net, e) && !IsQuiet(e) && i < |net.nodes| && RoundShape(net, net.nodes[i].m)
    ensures i < |Next(cfg, net, e).nodes| && RoundShape(Next(cfg, net, e), Next(cfg, net, e).nodes[i].m)
  {
    hide Extended, ExtendedAll, Proposed, Replied, CatchupDue;
  }

  lemma NextShaped(cfg: Config, net: Net, e: Event)
    requires IsConfig(cfg) && Shaped(cfg, net) && Enabled(cfg, net, e)
    ensures Shaped(cfg, Next(cfg, net, e))
  {
    var net' := Next(cfg, net, e);
    forall i | 0 <= i < cfg.n && i !in cfg.faulty ensures i < |net'.nodes| && RoundShape(net', net'.nodes[i].m) {
      if IsQuiet(e) { QuietRound(cfg, net, e, i); } else { OtherRound(cfg, net, e, i); }
    }
    LengthStays(cfg, net, e);
  }

  /** One event keeps a node in step exactly when it is good. */
  lemma InStepOn(cfg: Config, net: Net, e: Event)
    requires IsConfig(cfg) && Shaped(cfg, net) && Enabled(cfg, net, e) && AllInStep(cfg, net)
    ensures AllInStep(cfg, Next(cfg, net, e)) <==> Good(cfg)(net, e)
  {
    var net' := Next(cfg, net, e);
    if IsQuiet(e) {
      forall i | 0 <= i < cfg.n && i !in cfg.faulty ensures |net'.nodes| == cfg.n && InStep(net'.nodes[i]) {
        QuietRecord(cfg, net, e, i);
        assert InStep(net.nodes[i]);
      }
    } else if e.Step? {
      DecisionInStep(cfg, net, e.i);
    } else if e.Receive? {
      AnswerInStep(cfg, net, e.a);
    } else {
      hide Replica.Height, Applied;
      forall i | 0 <= i < cfg.n && i !in cfg.faulty ensures |net'.nodes| == cfg.n && InStep(net'.nodes[i]) {
        assert InStep(net.nodes[i]);
      }
    }
  }

  lemma DecisionInStep(cfg: Config, net: Net, i: nat)
    requires IsConfig(cfg) && Shaped(cfg, net) && Enabled(cfg, net, Step(i)) && AllInStep(cfg, net)
    ensures AllInStep(cfg, Next(cfg, net, Step(i))) <==> Good(cfg)(net, Step(i))
  {
    var net' := Next(cfg, net, Step(i));
    var a := net.nodes[i];
    hide Applied;
    assert RoundShape(net, a.m) && InStep(a);
    forall j | 0 <= j < cfg.n && j !in cfg.faulty && j != i ensures |net'.nodes| == cfg.n && InStep(net'.nodes[j]) {
      assert InStep(net.nodes[j]);
    }
    assert AllInStep(cfg, net') <==> InStep(net'.nodes[i]);
  }

  lemma AnswerInStep(cfg: Config, net: Net, a: Answer)
    requires IsConfig(cfg) && Shaped(cfg, net) && Enabled(cfg, net, Receive(a)) && AllInStep(cfg, net)
    ensures AllInStep(cfg, Next(cfg, net, Receive(a))) <==> Good(cfg)(net, Receive(a))
  {
    var net' := Next(cfg, net, Receive(a));
    assert InStep(net.nodes[a.dest]);
    AnswerHeight(cfg, net.nodes[a.dest], a.resp);
    hide ExtendedAll, Replica.Height, GoodAnswer;
    forall j | 0 <= j < cfg.n && j !in cfg.faulty && j != a.dest ensures |net'.nodes| == cfg.n && InStep(net'.nodes[j]) {
      assert InStep(net.nodes[j]);
    }
    assert AllInStep(cfg, net') <==> InStep(net'.nodes[a.dest]);
  }

  /** All correct nodes were in step after every event of the run. */
  ghost predicate InStepThroughout(cfg: Config, es: seq<Event>) {
    && (es == [] || InStepThroughout(cfg, es[..|es| - 1]))
    && match Run(cfg, es) case None => false case Some(net) => AllInStep(cfg, net)
  }

  lemma {:induction false} RunShaped(cfg: Config, es: seq<Event>)
    requires IsConfig(cfg) && Run(cfg, es).Some?
    ensures Shaped(cfg, Run(cfg, es).value)
  {
    if es != [] {
      RunShaped(cfg, es[..|es| - 1]);
      NextShaped(cfg, Run(cfg, es[..|es| - 1]).value, es[|es| - 1]);
    }
  }

  /**
   * In any run, whoever is faulty, heights and rounds stay in step if and only if every decided block executes and
   * carries the height of its round, and every answer that is taken leads to the round it is taken for.
   */
  lemma {:induction false} InStepExactlyWhen(cfg: Config, es: seq<Event>)
    requires IsConfig(cfg) && Run(cfg, es).Some?
    ensures InStepThroughout(cfg, es) <==> Throughout(cfg, es, Good(cfg))
  {
    if es != [] {
      var most := es[..|es| - 1];
      InStepExactlyWhen(cfg, most);
      RunShaped(cfg, most);
      if InStepThroughout(cfg, most) {
        InStepOn(cfg, Run(cfg, most).value, es[|es| - 1]);
      }
    }
  }

  // -------------------------------------------------------------------- when catching up is due

  /** Nobody forges a proposal, so what a node has heard of is no later than the leader's round. */
  ghost predicate LatestOk(cfg: Config, net: Net) {
    && |net.nodes| == cfg.n > 0 && net.nodes[0].m.cur.view == 0 && !net.nodes[0].m.catchupStarted
    && (forall pp :: pp in net.preprepares ==> AtMost(pp.at, net.nodes[0].m.cur))
    && (forall i :: 0 <= i < cfg.n ==>
          AtMost(net.nodes[i].m.latest, net.nodes[0].m.cur) && AtMost(ViewSeq(0, 0), net.nodes[i].m.latest))
  }

  /** The leader only goes forward, as it adopts nothing. */
  lemma LeaderForward(cfg: Config, net: Net, e: Event)
    requires IsConfig(cfg) && Shaped(cfg, net) && LatestOk(cfg, net) && Enabled(cfg, net, e)
    ensures var a, b := net.nodes[0].m, Next(cfg, net, e).nodes[0].m; AtMost(a.cur, b.cur) && b.cur.view == 0 && !b.catchupStarted
  {
    LengthStays(cfg, net, e);
    if IsQuiet(e) {
      QuietRecord(cfg, net, e, 0);
    } else {
      hide Extended, ExtendedAll, Proposed, Replied, CatchupDue, RoundShape;
    }
  }

  /** What a node has heard of as the latest round was sent. */
  lemma LatestHeard(cfg: Config, net: Net, e: Event, i: nat)
    requires Enabled(cfg, net, e) && i < |net.nodes|
    ensures var net' := Next(cfg, net, e);
            |net'.nodes| == |net.nodes| &&
            (net'.nodes[i].m.latest == net.nodes[i].m.latest ||
             (Below(net.nodes[i].m.latest, net'.nodes[i].m.latest) && exists pp :: pp in net.preprepares && pp.at == net'.nodes[i].m.latest))
  {
    hide LaterVotes, LaterPreprepares, Senders, Extended, ExtendedAll, Proposed, Replied, CatchupDue, IsChoice;
  }

  lemma LatestStep(cfg: Config, net: Net, e: Event)
    requires IsConfig(cfg) && cfg.faulty == {} && Shaped(cfg, net) && LatestOk(cfg, net) && Enabled(cfg, net, e)
    ensures LatestOk(cfg, Next(cfg, net, e))
  {
    var net' := Next(cfg, net, e);
    LeaderForward(cfg, net, e);
    SentByLeader(cfg, net, e);
    forall pp | pp in net'.preprepares ensures AtMost(pp.at, net'.nodes[0].m.cur) {
      if pp in net.preprepares { CompareIsTotalOrder(pp.at, net.nodes[0].m.cur, net'.nodes[0].m.cur); }
    }
    LengthStays(cfg, net, e);
    hide Next, Enabled, Shaped;
    forall i | 0 <= i < cfg.n
      ensures AtMost(net'.nodes[i].m.latest, net'.nodes[0].m.cur) && AtMost(ViewSeq(0, 0), net'.nodes[i].m.latest)
    {
      LatestHeard(cfg, net, e, i);
      CompareIsTotalOrder(net'.nodes[i].m.latest, net.nodes[0].m.cur, net'.nodes[0].m.cur);
      CompareIsTotalOrder(ViewSeq(0, 0), net.nodes[i].m.latest, net'.nodes[i].m.latest);
    }
  }

  /** With nobody faulty, every new proposal is the leader's, for its present round. */
  lemma SentByLeader(cfg: Config, net: Net, e: Event)
    requires cfg.faulty == {} && Enabled(cfg, net, e) && |net.nodes| > 0
    ensures forall pp :: pp in Next(cfg, net, e).preprepares ==> pp in net.preprepares || pp.at == net.nodes[0].m.cur
  {
    hide Curated, HeardPreprepare, HeardPrepare, HeardCommit, Extended, ReceivedNode, Replied, IsChoice, Applied;
  }

  lemma {:induction false} RunLatest(cfg: Config, es: seq<Event>)
    requires IsConfig(cfg) && cfg.faulty == {} && Run(cfg, es).Some?
    ensures LatestOk(cfg, Run(cfg, es).value)
  {
    if es != [] {
      RunLatest(cfg, es[..|es| - 1]);
      RunShaped(cfg, es[..|es| - 1]);
      LatestStep(cfg, Run(cfg, es[..|es| - 1]).value, es[|es| - 1]);
    }
  }

  /** The node wants to catch up although the leader is not that far ahead of it. */
  ghost predicate FalseAlarm(cfg: Config, es: seq<Event>, i: nat) {
    match Run(cfg, es)
    case None => false
    case Some(net) =>
      && Correct(cfg, net, i) && CatchupDue(net.nodes[i].m)
      && var cur, ahead := net.nodes[i].m.cur, net.nodes[0].m.cur;
         !(ahead.view == cur.view && ahead.seq_ >= cur.seq_ + CATCH_UP_THRESHOLD)
  }

  lemma AlarmByForgery(cfg: Config, i: nat, x: NodeId) returns (es: seq<Event>)
    requires IsConfig(cfg) && 0 !in cfg.faulty && i < cfg.n && i !in cfg.faulty && x in cfg.faulty
    ensures FalseAlarm(cfg, es, i)
  {
    var pp := Preprepare(Round(CATCH_UP_THRESHOLD), 0, GENESIS, x);
    var e1, e2 := ForgePreprepare(pp), HearPreprepare(i, pp, true);
    es := [e1, e2];
    assert es[..1] == [e1] && [e1][..0] == [];
    assert Run(cfg, []) == Some(Start(cfg));
    var n1 := Next(cfg, Start(cfg), e1);
    assert Run(cfg, [e1]) == Some(n1);
    assert Run(cfg, es) == Some(Next(cfg, n1, e2));
  }

  /**
   * A due catch-up means that the leader is at least the threshold ahead if and only if no node is faulty: the trigger
   * listens to proposals of any sender.
   */
  lemma DueMeansBehindExactlyWhen(cfg: Config)
    requires IsConfig(cfg) && 0 !in cfg.faulty
    ensures (forall es: seq<Event>, i: nat :: !FalseAlarm(cfg, es, i)) <==> cfg.faulty == {}
  {
    if cfg.faulty == {} {
      forall es: seq<Event>, i: nat ensures !FalseAlarm(cfg, es, i) {
        if Run(cfg, es).Some? && i < |Run(cfg, es).value.nodes| { RunLatest(cfg, es); }
      }
    } else {
      var x := SomeMember(cfg.faulty);
      var es := AlarmByForgery(cfg, 0, x);
    }
  }
}
