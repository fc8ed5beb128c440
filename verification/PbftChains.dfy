/** Chains and rounds in step, over every run of PBFT with catching up. */
module PbftChains {
  import opened Prelude
  import opened Accounts
  import opened ViewSeqs
  import opened MsgPools
  import opened PbftMeta
  import opened PbftSystem
  import opened PbftAgreement
  import opened PbftRuns
  import opened Chain

  /** The chain height is the sequence number plus one: the genesis block has height 1, the first round number 0. */
  ghost predicate InStep(a: Node) { a.chain.Height() == a.m.cur.seq_ + 1 }

  ghost predicate AllInStep(cfg: Config, net: Net) {
    forall i :: 0 <= i < |net.nodes| && i !in cfg.faulty ==> InStep(net.nodes[i])
  }

  /** What a node can check before it takes an answer: the blocks lead from its own height to the round it is to adopt. */
  predicate Fits(a: Node, resp: CatchupResp) { a.chain.Height() + |resp.blocks| == resp.next.seq_ + 1 }

  /** Every answer that is taken at all fits. */
  ghost function Fitting(cfg: Config): Test {
    (net: Net, e: Event) =>
      e.Receive? && Correct(cfg, net, e.a.dest) && IsWanted(net.nodes[e.a.dest], e.a.resp) ==> Fits(net.nodes[e.a.dest], e.a.resp)
  }

  lemma FittingIsLenient(cfg: Config)
    ensures Lenient(Fitting(cfg))
  {
  }

  // --------------------------------------------------------------- the line of a correct leader

  ghost predicate IsProper(line: seq<Block>) {
    && |line| >= 1 && line[0] == GENESIS
    && (forall k :: 0 <= k < |line| ==> line[k].header.number == k + 1)
    && (forall k :: 1 <= k < |line| ==> line[k].header.parent == HashOfHeader(line[k - 1].header))
  }

  /** The node's copy is the line up to some height. */
  ghost predicate IsCut(cfg: Config, line: seq<Block>, c: Replica)
    requires cfg.shardNum > 0
  {
    && 1 <= |c.history| <= |line| && c.history == line[..|c.history|]
    && Replayed(EMPTY_STATE, cfg.shardNum, cfg.shard, c.history) == Some(c.state)
  }

  /** The stage and the proposal of a node fit its round, and its pool holds what was sent. */
  ghost predicate RoundShape(net: Net, m: Meta) {
    && m.leader == INITIAL_LEADER && m.preprepares <= net.preprepares
    && (m.stage == StagePreprepare || m.stage == StagePrepare || m.stage == StageCommit)
    && (m.stage != StagePreprepare ==> m.proposal.Some?)
    && (m.proposal.Some? ==> IsProposalFor(m, m.proposal.value) && m.proposal.value in net.preprepares)
  }

  ghost predicate OnLine(cfg: Config, net: Net, line: seq<Block>, a: Node)
    requires cfg.shardNum > 0
  {
    RoundShape(net, a.m) && IsCut(cfg, line, a.chain) && a.m.cur == Round(|a.chain.history| - 1)
  }

  /** A proposal of the leader is the block of its round in the line. */
  ghost predicate ProposesLine(line: seq<Block>, pp: Preprepare) {
    pp.node == INITIAL_LEADER ==> pp.at.view == 0 && 0 <= pp.at.seq_ < |line| - 1 && pp.block == line[pp.at.seq_ + 1]
  }

  /** What the leader has answered is its own chain at that time, from the height asked for on. */
  ghost predicate AnswersLine(cfg: Config, net: Net, line: seq<Block>, a: Answer)
    requires cfg.shardNum > 0 && |net.nodes| > 0
  {
    a.resp.node == INITIAL_LEADER ==>
      && a.dest < |net.nodes| && 2 <= a.start <= |net.nodes[a.dest].chain.history| + 1
      && IsCut(cfg, line, a.source) && |a.source.history| <= |net.nodes[0].chain.history|
      && a.resp.next == Round(|a.source.history| - 1)
      && a.resp.blocks == BlocksFrom(a.source.history, a.start)
  }

  ghost predicate AsksLine(net: Net, r: Request) {
    r.node < |net.nodes| && 2 <= r.start <= |net.nodes[r.node].chain.history| + 1
  }

  /** The leader is at the end of the line, but for the block it has proposed. */
  ghost predicate LeaderOnLine(line: seq<Block>, a: Node) {
    && !a.m.catchupStarted
    && |line| <= |a.chain.history| + 1
    && (|line| == |a.chain.history| + 1 ==> a.m.proposed || a.m.stage != StagePreprepare)
  }

  ghost predicate Lined(cfg: Config, net: Net, line: seq<Block>) {
    && IsConfig(cfg) && 0 !in cfg.faulty && |net.nodes| == cfg.n
    && IsProper(line) && Replayed(EMPTY_STATE, cfg.shardNum, cfg.shard, line).Some?
    && (forall i :: 0 <= i < cfg.n && i !in cfg.faulty ==> OnLine(cfg, net, line, net.nodes[i]))
    && LeaderOnLine(line, net.nodes[0])
    && (forall pp :: pp in net.preprepares ==> ProposesLine(line, pp))
    && (forall r :: r in net.requests ==> AsksLine(net, r))
    && (forall a :: a in net.answers ==> AnswersLine(cfg, net, line, a))
  }

  lemma StartLined(cfg: Config)
    requires IsConfig(cfg) && 0 !in cfg.faulty
    ensures Lined(cfg, Start(cfg), [GENESIS])
  {
    GenesisState([GENESIS], cfg.shardNum, cfg.shard);
    assert [GENESIS][..1] == [GENESIS];
  }

  lemma HeightOfCut(cfg: Config, line: seq<Block>, c: Replica)
    requires cfg.shardNum > 0 && IsProper(line) && IsCut(cfg, line, c)
    ensures c.Height() == |c.history|
  {
    assert c.history[|c.history| - 1] == line[|c.history| - 1];
  }

  /** Every cut of a line that replays replays. */
  lemma CutReplays(cfg: Config, line: seq<Block>, k: nat)
    requires cfg.shardNum > 0 && k <= |line| && Replayed(EMPTY_STATE, cfg.shardNum, cfg.shard, line).Some?
    ensures Replayed(EMPTY_STATE, cfg.shardNum, cfg.shard, line[..k]).Some?
  {
    if Replayed(EMPTY_STATE, cfg.shardNum, cfg.shard, line[..k]).None? {
      ReplayStops(EMPTY_STATE, cfg.shardNum, cfg.shard, line, k);
    }
  }

  /** The next block of the line extends a cut by one. */
  lemma CutGrows(cfg: Config, line: seq<Block>, c: Replica)
    requires cfg.shardNum > 0 && IsCut(cfg, line, c) && |c.history| < |line|
    requires Replayed(EMPTY_STATE, cfg.shardNum, cfg.shard, line).Some?
    ensures var d := Extended(c, cfg.shardNum, cfg.shard, line[|c.history|]);
            d.Some? && IsCut(cfg, line, d.value) && |d.value.history| == |c.history| + 1
  {
    var k := |c.history|;
    CutReplays(cfg, line, k + 1);
    assert line[..k + 1] == line[..k] + [line[k]] && line[..k + 1][..k] == line[..k];
  }

  /** A cut of the line and the blocks after it, up to a greater height, make the greater cut. */
  lemma CutCatchesUp(cfg: Config, line: seq<Block>, c: Replica, source: Replica)
    requires cfg.shardNum > 0 && IsCut(cfg, line, c) && IsCut(cfg, line, source) && |c.history| <= |source.history|
    ensures ExtendedAll(c, cfg.shardNum, cfg.shard, source.history[|c.history|..]) == (source, true)
  {
    var k := |c.history|;
    assert source.history[..k] == line[..k] && source.history == source.history[..k] + source.history[k..];
    ReplayedAppend(EMPTY_STATE, cfg.shardNum, cfg.shard, source.history[..k], source.history[k..]);
    ExtendedReplays(c, cfg.shardNum, cfg.shard, source.history[k..]);
  }

  lemma LongerLine(cfg: Config, line: seq<Block>, b: Block, c: Replica)
    requires cfg.shardNum > 0 && IsCut(cfg, line, c)
    ensures IsCut(cfg, line + [b], c)
  {
    assert (line + [b])[..|c.history|] == line[..|c.history|];
  }

  // ------------------------------------------------------------------------------ the steps

  lemma QuietRound(cfg: Config, net: Net, e: Event, i: nat)
    requires IsConfig(cfg) && Enabled(cfg, net, e) && IsQuiet(e) && i < |net.nodes| && RoundShape(net, net.nodes[i].m)
    ensures i < |Next(cfg, net, e).nodes| && RoundShape(Next(cfg, net, e), Next(cfg, net, e).nodes[i].m)
  {
    QuietRecord(cfg, net, e, i);
    hide LaterVotes, Senders, Below;
  }

  lemma QuietLined(cfg: Config, net: Net, e: Event, line: seq<Block>)
    requires Lined(cfg, net, line) && Enabled(cfg, net, e) && IsQuiet(e)
    ensures Lined(cfg, Next(cfg, net, e), line)
  {
    var net' := Next(cfg, net, e);
    forall i | 0 <= i < cfg.n && i !in cfg.faulty ensures OnLine(cfg, net', line, net'.nodes[i]) && net'.nodes[i].chain == net.nodes[i].chain {
      assert OnLine(cfg, net, line, net.nodes[i]);
      QuietRound(cfg, net, e, i);
      QuietRecord(cfg, net, e, i);
    }
    QuietRecord(cfg, net, e, 0);
    QuietMessages(cfg, net, e, line);
  }

  lemma QuietMessages(cfg: Config, net: Net, e: Event, line: seq<Block>)
    requires Lined(cfg, net, line) && Enabled(cfg, net, e) && IsQuiet(e)
    ensures var net' := Next(cfg, net, e);
            && (forall pp :: pp in net'.preprepares ==> ProposesLine(line, pp))
            && (forall r :: r in net'.requests ==> AsksLine(net', r))
            && (forall a :: a in net'.answers ==> AnswersLine(cfg, net', line, a))
  {
    var net' := Next(cfg, net, e);
    hide OnLine, IsCut, Curated, HeardPreprepare, HeardPrepare, HeardCommit, Replayed;
    forall r | r in net'.requests ensures AsksLine(net', r) {
      assert AsksLine(net, r);
      QuietRecord(cfg, net, e, r.node);
    }
    forall a | a in net'.answers ensures AnswersLine(cfg, net', line, a) {
      if a.resp.node == INITIAL_LEADER {
        assert AnswersLine(cfg, net, line, a);
        QuietRecord(cfg, net, e, a.dest);
        QuietRecord(cfg, net, e, 0);
      }
    }
  }

  /** Only node i has changed, its chain has not become shorter, and messages are as they were. */
  ghost predicate OnlyNode(net: Net, net': Net, i: nat) {
    && i < |net.nodes| && |net'.nodes| == |net.nodes|
    && (forall j :: 0 <= j < |net.nodes| && j != i ==> net'.nodes[j] == net.nodes[j])
    && |net.nodes[i].chain.history| <= |net'.nodes[i].chain.history|
    && net'.preprepares == net.preprepares && net'.requests == net.requests && net'.answers == net.answers
  }

  lemma OnlyNodeLined(cfg: Config, net: Net, net': Net, i: nat, line: seq<Block>)
    requires Lined(cfg, net, line) && OnlyNode(net, net', i) && i !in cfg.faulty
    requires OnLine(cfg, net', line, net'.nodes[i]) && (i == 0 ==> LeaderOnLine(line, net'.nodes[0]))
    ensures Lined(cfg, net', line)
  {
    forall j | 0 <= j < cfg.n && j !in cfg.faulty ensures OnLine(cfg, net', line, net'.nodes[j]) {
      if j != i { assert OnLine(cfg, net, line, net.nodes[j]); }
    }
    hide OnLine, IsCut, Replayed;
    forall r | r in net'.requests ensures AsksLine(net', r) {
      assert AsksLine(net, r);
    }
    forall a | a in net'.answers ensures AnswersLine(cfg, net', line, a) {
      assert AnswersLine(cfg, net, line, a);
    }
  }

  /** A decided block is the next of the line, and so it executes. */
  lemma StepLined(cfg: Config, net: Net, i: nat, line: seq<Block>)
    requires Lined(cfg, net, line) && Enabled(cfg, net, Step(i))
    ensures Lined(cfg, Next(cfg, net, Step(i)), line)
  {
    var net' := Next(cfg, net, Step(i));
    var a := net.nodes[i];
    assert OnLine(cfg, net, line, a);
    if a.m.stage == StageCommit && Stepped(a.m).value.stage != a.m.stage {
      assert ProposesLine(line, a.m.proposal.value);
      CutGrows(cfg, line, a.chain);
      DecidedOnLine(cfg, net, i, line);
    } else {
      hide IsCut, Replayed;
    }
    OnlyNodeLined(cfg, net, net', i, line);
  }

  lemma DecidedOnLine(cfg: Config, net: Net, i: nat, line: seq<Block>)
    requires Lined(cfg, net, line) && Enabled(cfg, net, Step(i))
    requires net.nodes[i].m.stage == StageCommit && Stepped(net.nodes[i].m).value.stage != StageCommit
    ensures OnlyNode(net, Next(cfg, net, Step(i)), i) && OnLine(cfg, Next(cfg, net, Step(i)), line, Next(cfg, net, Step(i)).nodes[i])
    ensures i == 0 ==> LeaderOnLine(line, Next(cfg, net, Step(i)).nodes[0])
  {
    var a := net.nodes[i];
    assert OnLine(cfg, net, line, a);
    assert ProposesLine(line, a.m.proposal.value);
    CutGrows(cfg, line, a.chain);
    hide IsCut, Extended;
  }

  /** The leader proposes at the end of the line only, and its preview makes sure that the block executes. */
  lemma ProposeLined(cfg: Config, net: Net, digest: Digest, content: Content, line: seq<Block>) returns (line': seq<Block>)
    requires Lined(cfg, net, line) && Enabled(cfg, net, Propose(digest, content))
    ensures Lined(cfg, Next(cfg, net, Propose(digest, content)), line')
  {
    var net' := Next(cfg, net, Propose(digest, content));
    var a := net.nodes[0];
    var pp := Proposed(cfg, a, digest, content);
    assert OnLine(cfg, net, line, a);
    if pp.None? { return line; }
    assert a.chain.history == line;
    line' := line + [pp.value.block];
    assert line'[..|line|] == line;
    forall i | 0 <= i < cfg.n && i !in cfg.faulty ensures OnLine(cfg, net', line', net'.nodes[i]) {
      assert OnLine(cfg, net, line, net.nodes[i]);
      LongerLine(cfg, line, pp.value.block, net.nodes[i].chain);
    }
    ProposeMessages(cfg, net, net', line, pp.value);
    ProposedBlock(cfg, a, digest, content, line);
    hide OnLine, AnswersLine, AsksLine, ProposesLine, IsProper, Replayed, Proposed;
    assert LeaderOnLine(line', net'.nodes[0]);
  }

  /** The proposed block goes at the end of the line. */
  lemma ProposedBlock(cfg: Config, a: Node, digest: Digest, content: Content, line: seq<Block>)
    requires cfg.shardNum > 0 && IsProper(line) && IsCut(cfg, line, a.chain) && a.chain.history == line
    requires Proposed(cfg, a, digest, content).Some?
    ensures var line' := line + [Proposed(cfg, a, digest, content).value.block];
            IsProper(line') && Replayed(EMPTY_STATE, cfg.shardNum, cfg.shard, line').Some?
  {
    var b := Proposed(cfg, a, digest, content).value.block;
    assert (line + [b])[..|line|] == line;
  }

  lemma ProposeMessages(cfg: Config, net: Net, net': Net, line: seq<Block>, pp: Preprepare)
    requires Lined(cfg, net, line) && |net'.nodes| == cfg.n && pp.at == Round(|line| - 1) && pp.node == INITIAL_LEADER
    requires net'.preprepares == net.preprepares + {pp} && net'.answers == net.answers && net'.requests == net.requests
    requires forall i :: 0 <= i < cfg.n ==> net'.nodes[i].chain == net.nodes[i].chain
    ensures var line' := line + [pp.block];
            && (forall x :: x in net'.preprepares ==> ProposesLine(line', x))
            && (forall r :: r in net'.requests ==> AsksLine(net', r))
            && (forall a :: a in net'.answers ==> AnswersLine(cfg, net', line', a))
  {
    hide OnLine, Replayed;
    forall x | x in net'.answers ensures AnswersLine(cfg, net', line + [pp.block], x) {
      assert AnswersLine(cfg, net, line, x);
      if x.resp.node == INITIAL_LEADER { LongerLine(cfg, line, pp.block, x.source); }
    }
    forall x | x in net'.preprepares ensures ProposesLine(line + [pp.block], x) {
      if x in net.preprepares { assert ProposesLine(line, x); }
    }
    forall r | r in net'.requests ensures AsksLine(net', r) {
      assert AsksLine(net, r);
    }
  }

  lemma AskLined(cfg: Config, net: Net, i: nat, line: seq<Block>)
    requires Lined(cfg, net, line) && Enabled(cfg, net, Ask(i))
    ensures Lined(cfg, Next(cfg, net, Ask(i)), line)
  {
    var net' := Next(cfg, net, Ask(i));
    assert OnLine(cfg, net, line, net.nodes[i]);
    HeightOfCut(cfg, line, net.nodes[i].chain);
    var mid := net'.(requests := net.requests);
    hide IsCut, Replayed, Replica.Height;
    OnlyNodeLined(cfg, net, mid, i, line);
    forall j | 0 <= j < cfg.n && j !in cfg.faulty ensures OnLine(cfg, net', line, net'.nodes[j]) {
      assert OnLine(cfg, mid, line, mid.nodes[j]);
    }
    hide OnLine;
    forall r | r in net'.requests ensures AsksLine(net', r) {
      if r in net.requests { assert AsksLine(mid, r); }
    }
    forall a | a in net'.answers ensures AnswersLine(cfg, net', line, a) {
      assert AnswersLine(cfg, mid, line, a);
    }
  }

  lemma ReplyLined(cfg: Config, net: Net, r: Request, line: seq<Block>)
    requires Lined(cfg, net, line) && Enabled(cfg, net, Reply(r))
    ensures Lined(cfg, Next(cfg, net, Reply(r)), line)
  {
    var net' := Next(cfg, net, Reply(r));
    assert OnLine(cfg, net, line, net.nodes[0]) && AsksLine(net, r);
    hide IsCut, Replayed;
    forall a | a in net'.answers ensures AnswersLine(cfg, net', line, a) {
      if a in net.answers { assert AnswersLine(cfg, net, line, a); }
    }
    forall j | 0 <= j < cfg.n && j !in cfg.faulty ensures OnLine(cfg, net', line, net'.nodes[j]) {
      assert OnLine(cfg, net, line, net.nodes[j]);
    }
    forall q | q in net'.requests ensures AsksLine(net', q) {
      assert AsksLine(net, q);
    }
  }

  /** An answer that fits turns the node's cut into the leader's chain as of the answer. */
  lemma FittingAnswer(cfg: Config, net: Net, a: Answer, line: seq<Block>)
    requires Lined(cfg, net, line) && Enabled(cfg, net, Receive(a)) && IsWanted(net.nodes[a.dest], a.resp)
    requires Fits(net.nodes[a.dest], a.resp)
    ensures Adopts(cfg, net.nodes[a.dest], a.resp) && ReceivedNode(cfg, net.nodes[a.dest], a.resp).chain == a.source
  {
    var x := net.nodes[a.dest];
    assert OnLine(cfg, net, line, x) && AnswersLine(cfg, net, line, a);
    HeightOfCut(cfg, line, x.chain);
    var k, h := |x.chain.history|, |a.source.history|;
    assert k <= h && a.resp.blocks == a.source.history[k..];
    CutCatchesUp(cfg, line, x.chain, a.source);
  }

  lemma ReceiveLined(cfg: Config, net: Net, a: Answer, line: seq<Block>)
    requires Lined(cfg, net, line) && Enabled(cfg, net, Receive(a)) && Fitting(cfg)(net, Receive(a))
    ensures Lined(cfg, Next(cfg, net, Receive(a)), line)
  {
    var net' := Next(cfg, net, Receive(a));
    var x := net.nodes[a.dest];
    assert OnLine(cfg, net, line, x) && AnswersLine(cfg, net, line, a);
    if IsWanted(x, a.resp) {
      FittingAnswer(cfg, net, a, line);
      HeightOfCut(cfg, line, x.chain);
      HeightOfCut(cfg, line, a.source);
      hide IsCut, Replayed, ExtendedAll, IsProper;
      OnlyNodeLined(cfg, net, net', a.dest, line);
    } else {
      assert net' == net;
    }
  }

  lemma NextLined(cfg: Config, net: Net, e: Event, line: seq<Block>) returns (line': seq<Block>)
    requires Lined(cfg, net, line) && Enabled(cfg, net, e) && Fitting(cfg)(net, e)
    ensures Lined(cfg, Next(cfg, net, e), line')
  {
    line' := line;
    hide Lined, Next;
    match e
    case Step(i) => StepLined(cfg, net, i, line);
    case Propose(digest, content) => line' := ProposeLined(cfg, net, digest, content, line);
    case Ask(i) => AskLined(cfg, net, i, line);
    case Reply(r) => ReplyLined(cfg, net, r, line);
    case Receive(a) => ReceiveLined(cfg, net, a, line);
    case _ => QuietLined(cfg, net, e, line);
  }

  lemma {:induction false} RunLined(cfg: Config, es: seq<Event>) returns (line: seq<Block>)
    requires IsConfig(cfg) && 0 !in cfg.faulty && Run(cfg, es).Some? && Throughout(cfg, es, Fitting(cfg))
    ensures Lined(cfg, Run(cfg, es).value, line)
  {
    if es == [] {
      StartLined(cfg);
      line := [GENESIS];
    } else {
      line := RunLined(cfg, es[..|es| - 1]);
      line := NextLined(cfg, Run(cfg, es[..|es| - 1]).value, es[|es| - 1], line);
    }
  }
}
