/** A node that lags behind: what can be lost without any faulty node, and when early messages are never lost. */
module PbftLag {
  import opened Prelude
  import opened Accounts
  import opened ViewSeqs
  import opened MsgPools
  import opened PbftMeta
  import opened PbftSystem
  import opened PbftAgreement
  import opened PbftRuns
  import opened PbftRounds
  import opened PbftCatchup
  import opened PbftEarly
  import opened Chain

  // ---------------------------------------------------------------------- a node falls behind

  /** The leader is correct, and p is a correct follower. */
  predicate HasFollower(cfg: Config, p: nat) { IsConfig(cfg) && 0 !in cfg.faulty && 0 < p < cfg.n && p !in cfg.faulty }

  ghost function Ahead(cfg: Config, p: nat): set<NodeId> { CorrectNodes(cfg) - {p} }
  ghost function Voters(cfg: Config, p: nat): set<NodeId> { cfg.faulty + Ahead(cfg, p) }

  lemma AheadIsQuorum(cfg: Config, p: nat)
    requires HasFollower(cfg, p)
    ensures IsQuorum(cfg, Ahead(cfg, p)) && IsQuorum(cfg, CorrectNodes(cfg)) && |Voters(cfg, p)| >= 2 * FaultBound(cfg.n) + 1
    ensures 0 in Ahead(cfg, p) && Ahead(cfg, p) <= CorrectNodes(cfg) && p in CorrectNodes(cfg) && p !in Ahead(cfg, p)
    ensures Voters(cfg, p) <= cfg.faulty + CorrectNodes(cfg)
  {
    CorrectCount(cfg);
    assert cfg.faulty + Ahead(cfg, p) == cfg.faulty + CorrectNodes(cfg) - {p};
  }

  /** p is in round i, the others are in round j, and what was sent in between is there for p to hear. */
  ghost predicate Lagging(cfg: Config, net: Net, p: nat, i: nat, j: nat) {
    && |net.nodes| == cfg.n && InRound(cfg, net, p, i, Voters(cfg, p))
    && (forall q :: q in Ahead(cfg, p) ==> InRound(cfg, net, q, j, Voters(cfg, p)))
    && (forall r: nat :: i <= r < j ==> Sent(net, r, Voters(cfg, p)))
  }

  lemma FallsBehind(cfg: Config, p: nat, i: nat, j: nat, test: Test) returns (net: Net)
    requires HasFollower(cfg, p) && Lenient(test) && i <= j
    ensures Reached(cfg, net, test) && Lagging(cfg, net, p, i, j) && MayPropose(cfg, net, j) && !net.nodes[p].m.catchupStarted
  {
    var s := Voters(cfg, p);
    AheadIsQuorum(cfg, p);
    FirstRound(cfg, s, test);
    hide Reached, Lenient, CorrectNodes, Start, MayPropose, IsQuorum, Ahead, Voters, Counted, Sent;
    var n1 := Rounds(cfg, Start(cfg), CorrectNodes(cfg), 0, i, s, test);
    net := Rounds(cfg, n1, Ahead(cfg, p), i, j, s, test);
    assert net.nodes[p] == n1.nodes[p] && InRound(cfg, n1, p, i, s);
  }

  /** p hears the leader's proposal of round j, finds itself behind and asks. */
  lemma AsksBehind(cfg: Config, net: Net, p: nat, j: nat, test: Test) returns (net': Net)
    requires HasFollower(cfg, p) && Lenient(test) && Reached(cfg, net, test) && |net.nodes| == cfg.n && j >= CATCH_UP_THRESHOLD
    requires InRound(cfg, net, p, j - CATCH_UP_THRESHOLD, Voters(cfg, p)) && !net.nodes[p].m.catchupStarted && RoundProposal(j) in net.preprepares
    ensures Reached(cfg, net', test) && Evolved(net, net', {p}) && Request(p, j - CATCH_UP_THRESHOLD + 2) in net'.requests
    ensures net'.nodes[p].m.catchupStarted && Unmoved(net.nodes[p], net'.nodes[p])
  {
    hide Reached, Lenient, LineChain, LineBlock, Replica.Height, Voters;
    InRoundIs(cfg, net, p, j - CATCH_UP_THRESHOLD, Voters(cfg, p));
    hide InRound, Counted;
    net' := AsksFor(cfg, net, p, RoundProposal(j), test);
  }

  lemma StillLagging(cfg: Config, net: Net, net': Net, p: nat, i: nat, j: nat)
    requires Lagging(cfg, net, p, i, j) && |net.nodes| == |net'.nodes| && HasFollower(cfg, p)
    requires forall q :: 0 <= q < |net.nodes| ==> Unmoved(net.nodes[q], net'.nodes[q])
    requires net.preprepares <= net'.preprepares && net.prepares <= net'.prepares && net.commits <= net'.commits
    ensures Lagging(cfg, net', p, i, j)
  {
    var s := Voters(cfg, p);
    hide Voters;
    forall q | q == p || q in Ahead(cfg, p) ensures InRound(cfg, net', q, if q == p then i else j, s) {
      assert InRound(cfg, net, q, if q == p then i else j, s) && Unmoved(net.nodes[q], net'.nodes[q]);
    }
    forall r: nat | i <= r < j ensures Sent(net', r, s) {
      assert Sent(net, r, s);
    }
  }

  /** The leader has proposed in round j and answers with what p lacks. */
  ghost predicate Answered(cfg: Config, net: Net, p: nat, j: nat, a: Answer)
    requires j >= CATCH_UP_THRESHOLD
  {
    && Lagging(cfg, net, p, j - CATCH_UP_THRESHOLD, j) && net.nodes[p].m.catchupStarted && RoundProposal(j) in net.preprepares
    && a in net.answers && a.dest == p
    && a.resp == CatchupResp(LineChain(j).history[j - CATCH_UP_THRESHOLD + 1..], Round(j), INITIAL_LEADER)
  }

  lemma RepliesBehind(cfg: Config, net: Net, p: nat, j: nat, test: Test) returns (net': Net, a: Answer)
    requires HasFollower(cfg, p) && Lenient(test) && Reached(cfg, net, test) && j >= CATCH_UP_THRESHOLD
    requires Lagging(cfg, net, p, j - CATCH_UP_THRESHOLD, j) && net.nodes[p].m.catchupStarted && RoundProposal(j) in net.preprepares
    requires Request(p, j - CATCH_UP_THRESHOLD + 2) in net.requests
    ensures Reached(cfg, net', test) && Answered(cfg, net', p, j, a)
  {
    AheadIsQuorum(cfg, p);
    assert InRound(cfg, net, 0, j, Voters(cfg, p));
    LineGrows(cfg, j);
    var r := Request(p, j - CATCH_UP_THRESHOLD + 2);
    hide Reached, Lenient, LineChain, LineBlock, Lagging;
    net', a := LeaderReplies(cfg, net, r, test);
    StillLagging(cfg, net, net', p, j - CATCH_UP_THRESHOLD, j);
  }

  lemma AnsweredBehind(cfg: Config, p: nat, j: nat, test: Test) returns (net: Net, a: Answer)
    requires HasFollower(cfg, p) && Lenient(test) && j >= CATCH_UP_THRESHOLD
    ensures Reached(cfg, net, test) && Answered(cfg, net, p, j, a)
  {
    var i := j - CATCH_UP_THRESHOLD;
    var n1 := FallsBehind(cfg, p, i, j, test);
    hide Reached, Lenient, MayPropose;
    var n2 := GetsProposed(cfg, n1, j, test);
    StillLagging(cfg, n1, n2, p, i, j);
    var n3 := AsksBehind(cfg, n2, p, j, test);
    StillLagging(cfg, n2, n3, p, i, j);
    net, a := RepliesBehind(cfg, n3, p, j, test);
  }

  // ----------------------------------------------------- and gets there by itself in the meantime

  lemma VotesStay(votes: set<Vote>, more: set<Vote>, pp: Preprepare, s: set<NodeId>)
    requires AllVoted(votes, pp, s) && votes <= more
    ensures AllVoted(more, pp, s)
  {
  }

  lemma SoloRound(cfg: Config, net: Net, p: nat, r: nat, s: set<NodeId>, test: Test) returns (net': Net)
    requires cfg.shardNum > 0 && Lenient(test) && Reached(cfg, net, test)
    requires InRound(cfg, net, p, r, s) && Sent(net, r, s) && |s| >= 2 * FaultBound(cfg.n) + 1
    ensures Reached(cfg, net', test) && Evolved(net, net', {p}) && InRound(cfg, net', p, r + 1, s)
    ensures net'.nodes[p].m.catchupStarted == net.nodes[p].m.catchupStarted
  {
    var pp := RoundProposal(r);
    hide Reached, Lenient, LineBlock, LineChain, Counted, Extended;
    var n1 := PrepareOne(cfg, net, p, pp, test);
    VotesStay(net.prepares, n1.prepares, pp, s);
    var n2 := CommitOne(cfg, n1, p, pp, s, test);
    VotesStay(net.commits, n2.commits, pp, s);
    hide AllVoted;
    net' := DecideOne(cfg, n2, p, pp, s, test);
    VotesStay(n2.nodes[p].heardPrepares, net'.nodes[p].heardPrepares, pp, s);
    assert Decided(cfg, net, net', p, pp);
    DecidedRound(cfg, net, net', p, r, s);
  }

  lemma SentStays(net: Net, net': Net, k: nat, s: set<NodeId>)
    requires Sent(net, k, s) && net.preprepares <= net'.preprepares && net.prepares <= net'.prepares && net.commits <= net'.commits
    ensures Sent(net', k, s)
  {
  }

  lemma {:induction false} SoloRounds(cfg: Config, net: Net, p: nat, i: nat, j: nat, s: set<NodeId>, test: Test) returns (net': Net)
    requires cfg.shardNum > 0 && Lenient(test) && Reached(cfg, net, test) && i <= j
    requires InRound(cfg, net, p, i, s) && (forall r: nat :: i <= r < j ==> Sent(net, r, s)) && |s| >= 2 * FaultBound(cfg.n) + 1
    ensures Reached(cfg, net', test) && Evolved(net, net', {p}) && InRound(cfg, net', p, j, s)
    ensures net'.nodes[p].m.catchupStarted == net.nodes[p].m.catchupStarted
    decreases j
  {
    hide Reached, Lenient, InRound, LineBlock, LineChain, AllVoted;
    if i == j {
      net' := net;
    } else {
      var n1 := SoloRounds(cfg, net, p, i, j - 1, s, test);
      assert Sent(net, j - 1, s);
      SentStays(net, n1, j - 1, s);
      hide Sent;
      net' := SoloRound(cfg, n1, p, j - 1, s, test);
    }
  }

  /** The answer is still under way when p is in round j by its own votes. */
  lemma GetsThere(cfg: Config, p: nat, j: nat, test: Test) returns (net: Net, a: Answer)
    requires HasFollower(cfg, p) && Lenient(test) && j >= CATCH_UP_THRESHOLD
    ensures Reached(cfg, net, test) && Answers(net, p, j, a) && |net.nodes| == cfg.n && RoundProposal(j) in net.preprepares
    ensures forall q :: q in CorrectNodes(cfg) ==> InRound(cfg, net, q, j, Voters(cfg, p))
  {
    var s := Voters(cfg, p);
    AheadIsQuorum(cfg, p);
    var n1, answer := AnsweredBehind(cfg, p, j, test);
    a := answer;
    hide Reached, Lenient, Voters;
    net := SoloRounds(cfg, n1, p, j - CATCH_UP_THRESHOLD, j, s, test);
    forall q | q in CorrectNodes(cfg) ensures InRound(cfg, net, q, j, s) {
      if q != p { assert q in Ahead(cfg, p) && InRound(cfg, n1, q, j, s) && net.nodes[q] == n1.nodes[q]; }
    }
  }

  /** p waits, and the answer with what p lacked before round j is there. */
  ghost predicate Answers(net: Net, p: nat, j: nat, a: Answer)
    requires j >= CATCH_UP_THRESHOLD
  {
    && p < |net.nodes| && net.nodes[p].m.catchupStarted && a in net.answers && a.dest == p
    && a.resp == CatchupResp(LineChain(j).history[j - CATCH_UP_THRESHOLD + 1..], Round(j), INITIAL_LEADER)
  }

  /** And when everybody is in round k. */
  lemma GetsFurther(cfg: Config, p: nat, j: nat, k: nat, test: Test) returns (net: Net, a: Answer)
    requires HasFollower(cfg, p) && Lenient(test) && CATCH_UP_THRESHOLD <= j < k
    ensures Reached(cfg, net, test) && Answers(net, p, j, a) && |net.nodes| == cfg.n && Sent(net, j, Voters(cfg, p))
    ensures InRound(cfg, net, p, k, Voters(cfg, p))
  {
    AheadIsQuorum(cfg, p);
    var n1, answer := GetsThere(cfg, p, j, test);
    a := answer;
    hide Reached, Lenient, Voters, CorrectNodes, InRound, LineChain, IsQuorum;
    net := Rounds(cfg, n1, CorrectNodes(cfg), j, k, Voters(cfg, p), test);
  }

  /** Without a fault anywhere, every round from the threshold on can be adopted in any later round, and votes get lost. */
  lemma LaggingRun(cfg: Config, guard: Guard, p: nat, k: nat, j: nat) returns (es: seq<Event>)
    requires HasFollower(cfg, p) && guard(k, j) && CATCH_UP_THRESHOLD <= j <= k
    ensures LastCurated(cfg, es, p) && Throughout(cfg, es, Guarded(cfg, guard)) && !NothingLostBy(cfg, es, p)
  {
    var test := Guarded(cfg, guard);
    GuardedIsLenient(cfg, guard);
    AheadIsQuorum(cfg, p);
    var net, a, x := ExposedBehind(cfg, p, k, j, test);
    hide Reached, Lenient;
    LineApplies(cfg, net.nodes[p].chain, a.resp.blocks);
    es := Loses(cfg, net, a, k, j, x, guard);
  }

  lemma ExposedBehind(cfg: Config, p: nat, k: nat, j: nat, test: Test) returns (net: Net, a: Answer, x: NodeId)
    requires HasFollower(cfg, p) && Lenient(test) && CATCH_UP_THRESHOLD <= j <= k
    ensures Reached(cfg, net, test) && Exposed(cfg, net, p, k, j, x) && Answers(net, p, j, a) && net.nodes[p].chain == LineChain(k)
  {
    AheadIsQuorum(cfg, p);
    hide Reached, Lenient, LineChain, Ahead;
    if j < k {
      net, a := GetsFurther(cfg, p, j, k, test);
      x := 0;
      ExposedInPast(cfg, net, p, k, j, Voters(cfg, p), x);
    } else {
      var n1, answer := GetsThere(cfg, p, j, test);
      a, x := answer, p;
      assert InRound(cfg, n1, p, k, Voters(cfg, p));
      net := CountsOwnVote(cfg, n1, p, k, test);
    }
  }

  /** Blocks without transactions can be added to any chain without accounts, and as often as one likes. */
  lemma {:induction false} LineApplies(cfg: Config, c: Replica, blocks: seq<Block>)
    requires cfg.shardNum > 0 && c.state == EMPTY_STATE && forall b :: b in blocks ==> b.header.content == EMPTY_CONTENT
    ensures ExtendedAll(c, cfg.shardNum, cfg.shard, blocks) == (Replica(c.history + blocks, EMPTY_STATE), true)
  {
    if blocks == [] {
      assert c.history + blocks == c.history;
    } else {
      var most, last := blocks[..|blocks| - 1], blocks[|blocks| - 1];
      LineApplies(cfg, c, most);
      EmptyApplies(EMPTY_STATE, cfg.shardNum, cfg.shard);
      assert c.history + most + [last] == c.history + blocks;
    }
  }

  // -------------------------------------------------------------------------- blocks added again

  lemma TakenAtLast(cfg: Config, net: Net, a: Answer, test: Test) returns (es: seq<Event>)
    requires Reached(cfg, net, test) && Enabled(cfg, net, Receive(a)) && test(net, Receive(a))
    ensures Run(cfg, es) == Some(Next(cfg, net, Receive(a)))
  {
    Extend(cfg, net, Receive(a), test);
    hide Next, Enabled;
    es :| Run(cfg, es) == Some(Next(cfg, net, Receive(a))) && Throughout(cfg, es, test);
  }

  lemma LineIsEmpty(k: nat)
    ensures LineChain(k).state == EMPTY_STATE && |LineChain(k).history| == k + 1
    ensures forall b :: b in LineChain(k).history ==> b.header.content == EMPTY_CONTENT
    ensures LineChain(k).history[k].header.number == k + 1
  {
  }

  lemma TakesLine(cfg: Config, net: Net, p: nat, j: nat, s: set<NodeId>, a: Answer)
    requires cfg.shardNum > 0 && j >= CATCH_UP_THRESHOLD && Answers(net, p, j, a) && Correct(cfg, net, p) && InRound(cfg, net, p, j, s)
    ensures Enabled(cfg, net, Receive(a)) && p < |Next(cfg, net, Receive(a)).nodes|
    ensures var b := Next(cfg, net, Receive(a)).nodes[p];
            && b.chain.history == LineChain(j).history + LineChain(j).history[j - CATCH_UP_THRESHOLD + 1..]
            && b.m.cur == Round(j) && b.chain.Height() == j + 1
  {
    var line, blocks := LineChain(j).history, a.resp.blocks;
    LineIsEmpty(j);
    hide ExtendedAll, LineChain, LineBlock, Counted;
    LineApplies(cfg, net.nodes[p].chain, blocks);
    assert (line + blocks)[|line + blocks| - 1] == line[j];
  }

  lemma WithTheLine(cfg: Config, p: nat, test: Test) returns (net: Net, a: Answer)
    requires HasFollower(cfg, p) && Lenient(test)
    ensures Reached(cfg, net, test) && Enabled(cfg, net, Receive(a)) && p < |Next(cfg, net, Receive(a)).nodes|
    ensures var b, line := Next(cfg, net, Receive(a)).nodes[p], LineChain(CATCH_UP_THRESHOLD).history;
            b.chain.history == line + line[1..] && b.m.cur == Round(CATCH_UP_THRESHOLD) && b.chain.Height() == CATCH_UP_THRESHOLD + 1
  {
    AheadIsQuorum(cfg, p);
    var net0, answer := GetsThere(cfg, p, CATCH_UP_THRESHOLD, test);
    net, a := net0, answer;
    assert InRound(cfg, net, p, CATCH_UP_THRESHOLD, Voters(cfg, p)) && Correct(cfg, net, p);
    hide Reached, Lenient, InRound, LineChain, LineBlock, Voters, CorrectNodes, Next, Enabled, Replica.Height, Answers;
    TakesLine(cfg, net, p, CATCH_UP_THRESHOLD, Voters(cfg, p), a);
  }

  /**
   * With a correct leader, whoever else is faulty or not: a node that falls behind, asks, and decides the blocks it
   * lacks by itself before the answer comes, adds all of them once more. Height and round do not show it.
   */
  lemma AddsBlocksTwice(cfg: Config, p: nat) returns (es: seq<Event>)
    requires HasFollower(cfg, p)
    ensures Run(cfg, es).Some? && p < |Run(cfg, es).value.nodes|
    ensures var a, line := Run(cfg, es).value.nodes[p], LineChain(CATCH_UP_THRESHOLD).history;
            a.chain.history == line + line[1..] && a.m.cur == Round(CATCH_UP_THRESHOLD) && a.chain.Height() == CATCH_UP_THRESHOLD + 1
  {
    var test := (net: Net, e: Event) => true;
    var net, a := WithTheLine(cfg, p, test);
    es := TakenAtLast(cfg, net, a, test);
  }

  // --------------------------------------------------------------- when no early message is ever lost

  predicate IsFollower(cfg: Config, p: nat) { 0 < p < cfg.n && p !in cfg.faulty }

  ghost predicate LeaderNeverAsks(cfg: Config, net: Net) { |net.nodes| == cfg.n > 0 && (0 !in cfg.faulty ==> !net.nodes[0].m.catchupStarted) }

  lemma LeaderNeverAsksStep(cfg: Config, net: Net, e: Event)
    requires LeaderNeverAsks(cfg, net) && Enabled(cfg, net, e)
    ensures LeaderNeverAsks(cfg, Next(cfg, net, e))
  {
    LengthStays(cfg, net, e);
    if IsQuiet(e) {
      QuietRecord(cfg, net, e, 0);
    } else {
      hide Extended, ExtendedAll, Proposed, Replied, CatchupDue, Replica.Height;
    }
  }

  /** Without a correct follower nobody ever adopts a round. */
  lemma {:induction false} NobodyAdopts(cfg: Config, es: seq<Event>)
    requires IsConfig(cfg) && (forall p: nat :: !IsFollower(cfg, p)) && Run(cfg, es).Some?
    ensures LeaderNeverAsks(cfg, Run(cfg, es).value) && Throughout(cfg, es, Forward(cfg))
  {
    if es != [] {
      var most, e := es[..|es| - 1], es[|es| - 1];
      NobodyAdopts(cfg, most);
      LeaderNeverAsksStep(cfg, Run(cfg, most).value, e);
      assert e.Receive? ==> !IsFollower(cfg, e.a.dest);
    }
  }

  /** Without faulty nodes whoever asks is behind by the threshold, and all answers are to that effect. */
  ghost predicate FarAnswers(cfg: Config, net: Net) {
    && |net.nodes| == cfg.n > 0
    && (forall i :: 0 <= i < cfg.n ==> net.nodes[i].m.cur.seq_ >= 0)
    && (net.requests != {} ==> net.nodes[0].m.cur.seq_ >= CATCH_UP_THRESHOLD)
    && (forall a :: a in net.answers ==> a.resp.next.view == 0 && a.resp.next.seq_ >= CATCH_UP_THRESHOLD)
  }

  /** Who asks has heard of a round that the leader has reached. */
  lemma AskerIsBehind(cfg: Config, net: Net, i: nat)
    requires cfg.n > 0 && LatestOk(cfg, net) && i < cfg.n && CatchupDue(net.nodes[i].m) && net.nodes[i].m.cur.seq_ >= 0
    ensures net.nodes[0].m.cur.seq_ >= CATCH_UP_THRESHOLD
  {
  }

  lemma FarMessages(cfg: Config, net: Net, e: Event)
    requires IsConfig(cfg) && cfg.faulty == {} && LatestOk(cfg, net) && FarAnswers(cfg, net) && Enabled(cfg, net, e)
    ensures var net' := Next(cfg, net, e);
            && (forall a :: a in net'.answers ==> a.resp.next.view == 0 && a.resp.next.seq_ >= CATCH_UP_THRESHOLD)
            && (net'.requests != {} ==> net.requests != {} || net.nodes[0].m.cur.seq_ >= CATCH_UP_THRESHOLD)
  {
    if e.Ask? { AskerIsBehind(cfg, net, e.i); }
    assert net.nodes[0].m.cur.view == 0;
    hide Curated, HeardPreprepare, HeardPrepare, HeardCommit, Extended, ReceivedNode, Proposed, CatchupDue, IsChoice, Replica.Height, LatestOk;
  }

  /** Rounds of a node are left for the next one, or for one that an answer names. */
  lemma RoundsLeft(cfg: Config, net: Net, e: Event, i: nat)
    requires Enabled(cfg, net, e) && i < |net.nodes| && net.nodes[i].m.cur.seq_ >= 0
    requires forall a :: a in net.answers ==> a.resp.next.seq_ >= CATCH_UP_THRESHOLD
    ensures i < |Next(cfg, net, e).nodes| && Next(cfg, net, e).nodes[i].m.cur.seq_ >= 0
  {
    LengthStays(cfg, net, e);
    if IsQuiet(e) {
      QuietRecord(cfg, net, e, i);
    } else {
      hide Extended, ExtendedAll, Proposed, Replied, CatchupDue, Replica.Height;
    }
  }

  lemma FarStep(cfg: Config, net: Net, e: Event)
    requires IsConfig(cfg) && cfg.faulty == {} && Shaped(cfg, net) && LatestOk(cfg, net) && FarAnswers(cfg, net) && Enabled(cfg, net, e)
    ensures FarAnswers(cfg, Next(cfg, net, e))
  {
    LengthStays(cfg, net, e);
    LeaderForward(cfg, net, e);
    FarMessages(cfg, net, e);
    hide Next, Enabled, Shaped, LatestOk;
    forall i | 0 <= i < cfg.n ensures Next(cfg, net, e).nodes[i].m.cur.seq_ >= 0 {
      RoundsLeft(cfg, net, e, i);
    }
  }

  lemma {:induction false} FarForward(cfg: Config, es: seq<Event>, guard: Guard)
    requires IsConfig(cfg) && cfg.faulty == {} && Run(cfg, es).Some? && Throughout(cfg, es, Guarded(cfg, guard))
    requires forall k: nat, j: nat :: guard(k, j) ==> k < j || j < CATCH_UP_THRESHOLD
    ensures FarAnswers(cfg, Run(cfg, es).value) && Throughout(cfg, es, Forward(cfg))
  {
    if es != [] {
      var most, e := es[..|es| - 1], es[|es| - 1];
      FarForward(cfg, most, guard);
      RunShaped(cfg, most);
      RunLatest(cfg, most);
      GuardedIsForward(cfg, Run(cfg, most).value, e, guard);
      FarStep(cfg, Run(cfg, most).value, e);
    }
  }

  lemma GuardedIsForward(cfg: Config, net: Net, e: Event, guard: Guard)
    requires Enabled(cfg, net, e) && FarAnswers(cfg, net) && Guarded(cfg, guard)(net, e)
    requires forall k: nat, j: nat :: guard(k, j) ==> k < j || j < CATCH_UP_THRESHOLD
    ensures Forward(cfg)(net, e)
  {
    hide Adopts;
  }

  /** The guard lets a node go nowhere but forward, as far as answers can tempt it. */
  ghost predicate OnlyForward(cfg: Config, guard: Guard) {
    || (forall p: nat :: !IsFollower(cfg, p))
    || forall k: nat, j: nat :: guard(k, j) ==> k < j || (cfg.faulty == {} && j < CATCH_UP_THRESHOLD)
  }

  lemma OnlyForwardIs(cfg: Config, es: seq<Event>, guard: Guard)
    requires IsConfig(cfg) && OnlyForward(cfg, guard) && Run(cfg, es).Some? && Throughout(cfg, es, Guarded(cfg, guard))
    ensures Throughout(cfg, es, Forward(cfg))
  {
    if forall p: nat :: !IsFollower(cfg, p) {
      NobodyAdopts(cfg, es);
    } else if cfg.faulty == {} {
      FarForward(cfg, es, guard);
    } else {
      ThroughoutToo(cfg, es, Guarded(cfg, guard), Forward(cfg));
    }
  }

  /** Some run loses a vote if the guard lets a round through that is not later and that an answer can name. */
  lemma BackwardLoses(cfg: Config, guard: Guard) returns (es: seq<Event>, p: nat)
    requires IsConfig(cfg) && !OnlyForward(cfg, guard)
    ensures LastCurated(cfg, es, p) && Throughout(cfg, es, Guarded(cfg, guard)) && !NothingLostBy(cfg, es, p)
  {
    p :| IsFollower(cfg, p);
    var k: nat, j: nat :| guard(k, j) && j <= k && (cfg.faulty == {} ==> j >= CATCH_UP_THRESHOLD);
    if cfg.faulty == {} {
      es := LaggingRun(cfg, guard, p, k, j);
    } else {
      var x := SomeMember(cfg.faulty);
      es := LosingRun(cfg, guard, k, j, p, x);
    }
  }

  /**
   * Early messages are never lost, in any run, if and only if the rounds that nodes adopt are strictly later than the
   * ones they leave; or there is no correct follower to adopt any; or nobody is faulty and the rounds are the first
   * few, which no answer names. The source adopts whatever the answer says.
   */
  lemma NeverLosesExactlyWhen(cfg: Config, guard: Guard)
    requires IsConfig(cfg)
    ensures NeverLoses(cfg, guard) <==> OnlyForward(cfg, guard)
  {
    if OnlyForward(cfg, guard) {
      forall es: seq<Event>, i: nat | LastCurated(cfg, es, i) && Throughout(cfg, es, Guarded(cfg, guard)) ensures NothingLostBy(cfg, es, i) {
        OnlyForwardIs(cfg, es, guard);
        NothingHeardIsLost(cfg, es, Run(cfg, es).value, i);
      }
    } else {
      var es, p := BackwardLoses(cfg, guard);
    }
  }
}
