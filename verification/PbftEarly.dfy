/** Which rounds may be adopted in a catch-up so that no early message is ever lost. */
module PbftEarly {
  import opened Prelude
  import opened Accounts
  import opened ViewSeqs
  import opened MsgPools
  import opened PbftMeta
  import opened PbftSystem
  import opened PbftAgreement
  import opened PbftRuns
  import opened PbftRounds
  import opened Chain

  /** A guard on sequence numbers: may a node in the first round adopt the second? */
  type Guard = (nat, nat) -> bool

  /** Adopted rounds stay in the view and pass the guard. */
  ghost function Guarded(cfg: Config, guard: Guard): Test {
    (net: Net, e: Event) => IsAdoption(cfg, net, e) ==>
      var cur, next := net.nodes[e.a.dest].m.cur, e.a.resp.next;
      next.view == cur.view && cur.seq_ >= 0 && next.seq_ >= 0 && guard(cur.seq_, next.seq_)
  }

  lemma GuardedIsLenient(cfg: Config, guard: Guard)
    ensures Lenient(Guarded(cfg, guard))
  {
    forall net: Net, e: Event | !e.Receive? ensures Guarded(cfg, guard)(net, e) {
      assert !IsAdoption(cfg, net, e);
    }
  }

  lemma {:induction false} ThroughoutToo(cfg: Config, es: seq<Event>, test: Test, other: Test)
    requires Throughout(cfg, es, test) && forall net: Net, e: Event :: test(net, e) ==> other(net, e)
    ensures Throughout(cfg, es, other)
  {
    if es != [] {
      ThroughoutToo(cfg, es[..|es| - 1], test, other);
    }
  }

  /** In every guarded run, a node that has just curated has counted every matching vote it ever heard. */
  ghost predicate NeverLoses(cfg: Config, guard: Guard) {
    forall es: seq<Event>, i: nat :: LastCurated(cfg, es, i) && Throughout(cfg, es, Guarded(cfg, guard)) ==> NothingLostBy(cfg, es, i)
  }

  ghost predicate LastCurated(cfg: Config, es: seq<Event>, i: nat) {
    es != [] && es[|es| - 1].Curate? && es[|es| - 1].i == i && Run(cfg, es).Some? && i < |Run(cfg, es).value.nodes|
  }

  ghost predicate NothingLostBy(cfg: Config, es: seq<Event>, i: nat) {
    Run(cfg, es).Some? && i < |Run(cfg, es).value.nodes| && NothingLost(Run(cfg, es).value.nodes[i])
  }

  // -------------------------------------------------------------------- asking and answering

  /** A proposal far ahead makes the node ask to catch up, whoever sent it. */
  lemma AsksFor(cfg: Config, net: Net, i: nat, far: Preprepare, test: Test) returns (net': Net)
    requires cfg.shardNum > 0 && Reached(cfg, net, test) && Lenient(test) && far in net.preprepares
    requires Correct(cfg, net, i) && i != INITIAL_LEADER && !net.nodes[i].m.catchupStarted
    requires net.nodes[i].m.latest.view == net.nodes[i].m.cur.view == far.at.view
    requires far.at.seq_ == net.nodes[i].m.cur.seq_ + CATCH_UP_THRESHOLD
    ensures Reached(cfg, net', test) && Evolved(net, net', {i}) && Request(i, net.nodes[i].chain.Height() + 1) in net'.requests
    ensures net'.nodes[i].m.catchupStarted && Unmoved(net.nodes[i], net'.nodes[i])
  {
    Extend(cfg, net, HearPreprepare(i, far, true), test);
    var n2 := Next(cfg, net, HearPreprepare(i, far, true));
    assert CatchupDue(n2.nodes[i].m);
    Extend(cfg, n2, Ask(i), test);
    hide Reached, Lenient, Replica.Height;
    net' := Next(cfg, n2, Ask(i));
  }

  /** The node has asked or proposed, if anything, and is in its round as before. */
  predicate Unmoved(a: Node, b: Node) {
    && b == a.(m := a.m.(proposed := b.m.proposed, catchupStarted := b.m.catchupStarted, latest := b.m.latest, preprepares := b.m.preprepares))
    && b.m.latest.view == a.m.latest.view
  }

  lemma LeaderReplies(cfg: Config, net: Net, r: Request, test: Test) returns (net': Net, a: Answer)
    requires cfg.shardNum > 0 && Reached(cfg, net, test) && Lenient(test) && Correct(cfg, net, 0) && r in net.requests
    requires r.start > 0 && net.nodes[0].chain.Height() - r.start + 1 <= BLOCKS_FETCH_LIMIT
    ensures Reached(cfg, net', test) && a in net'.answers && Some(a) == Replied(net.nodes[0], r)
    ensures net' == net.(answers := net.answers + {a})
  {
    Extend(cfg, net, Reply(r), test);
    net' := Next(cfg, net, Reply(r));
    a := Replied(net.nodes[0], r).value;
  }

  /** The answer of a leader that is in round j and has no more blocks than the node that asks; a faulty one can forge it. */
  lemma AnsweredNothing(cfg: Config, net: Net, p: nat, j: nat, test: Test) returns (net': Net, a: Answer)
    requires IsConfig(cfg) && Reached(cfg, net, test) && Lenient(test) && Request(p, j + 2) in net.requests
    requires 0 in cfg.faulty || AtRound(cfg, net, 0, j)
    ensures Reached(cfg, net', test) && net' == net.(answers := net.answers + {a})
    ensures a.dest == p && a.resp == CatchupResp([], Round(j), INITIAL_LEADER)
  {
    LineGrows(cfg, j);
    if 0 in cfg.faulty {
      a := Answer(p, CatchupResp([], Round(j), INITIAL_LEADER), j + 2, NEW_REPLICA);
      Extend(cfg, net, ForgeAnswer(a), test);
      net' := Next(cfg, net, ForgeAnswer(a));
    } else {
      net', a := LeaderReplies(cfg, net, Request(p, j + 2), test);
    }
  }

  lemma StillInRound(cfg: Config, net: Net, net': Net, k: nat, s: set<NodeId>)
    requires |net.nodes| == |net'.nodes| && forall i :: 0 <= i < |net.nodes| ==> Unmoved(net.nodes[i], net'.nodes[i])
    requires forall i :: i in CorrectNodes(cfg) ==> InRound(cfg, net, i, k, s)
    ensures forall i :: i in CorrectNodes(cfg) ==> InRound(cfg, net', i, k, s)
  {
    forall i | i in CorrectNodes(cfg) ensures InRound(cfg, net', i, k, s) {
      assert InRound(cfg, net, i, k, s) && Unmoved(net.nodes[i], net'.nodes[i]);
    }
  }

  lemma StillMayPropose(cfg: Config, net: Net, net': Net, k: nat)
    requires MayPropose(cfg, net, k) && |net.nodes| == |net'.nodes| && (net.nodes != [] ==> net'.nodes[0] == net.nodes[0])
    requires net.preprepares <= net'.preprepares
    ensures MayPropose(cfg, net', k)
  {
  }

  lemma AsksInRound(cfg: Config, net: Net, p: nat, x: NodeId, j: nat, s: set<NodeId>, test: Test) returns (net': Net)
    requires IsConfig(cfg) && Reached(cfg, net, test) && Lenient(test) && |net.nodes| == cfg.n
    requires 0 < p < cfg.n && p !in cfg.faulty && x in cfg.faulty && !net.nodes[p].m.catchupStarted && InRound(cfg, net, p, j, s)
    ensures Reached(cfg, net', test) && Evolved(net, net', {p}) && Request(p, j + 2) in net'.requests
    ensures net'.nodes[p].m.catchupStarted && Unmoved(net.nodes[p], net'.nodes[p])
  {
    hide Reached, Lenient, LineChain, LineBlock, Replica.Height;
    InRoundIs(cfg, net, p, j, s);
    hide InRound, Counted;
    var far := Preprepare(Round(j + CATCH_UP_THRESHOLD), 0, GENESIS, x);
    var n1 := ForgeProposal(cfg, net, far, test);
    net' := AsksFor(cfg, n1, p, far, test);
  }

  /** In a round that all correct nodes are in, p asks and is answered that there is nothing new. */
  lemma AskedInRound(cfg: Config, net: Net, p: nat, x: NodeId, j: nat, s: set<NodeId>, test: Test) returns (net': Net, a: Answer)
    requires IsConfig(cfg) && Reached(cfg, net, test) && Lenient(test) && |net.nodes| == cfg.n
    requires 0 < p < cfg.n && p !in cfg.faulty && x in cfg.faulty && !net.nodes[p].m.catchupStarted
    requires MayPropose(cfg, net, j) && forall i :: i in CorrectNodes(cfg) ==> InRound(cfg, net, i, j, s)
    ensures Reached(cfg, net', test) && Evolved(net, net', {p}) && net'.nodes[p].m.catchupStarted && MayPropose(cfg, net', j)
    ensures forall i :: i in CorrectNodes(cfg) ==> InRound(cfg, net', i, j, s)
    ensures a in net'.answers && a.dest == p && a.resp == CatchupResp([], Round(j), INITIAL_LEADER)
  {
    hide Reached, Lenient, InRound, MayPropose;
    assert p in CorrectNodes(cfg);
    var n1 := AsksInRound(cfg, net, p, x, j, s, test);
    StillInRound(cfg, net, n1, j, s);
    if 0 !in cfg.faulty { InRoundIs(cfg, n1, 0, j, s); }
    net', a := AnsweredNothing(cfg, n1, p, j, test);
    StillMayPropose(cfg, net, net', j);
    StillInRound(cfg, n1, net', j, s);
  }

  // ------------------------------------------------------------------------- the losing runs

  /** At the beginning of a round, a vote for its proposal has been heard that is in the pool no more. */
  ghost predicate Forgotten(net: Net, i: nat, pp: Preprepare, x: NodeId) {
    && i < |net.nodes| && pp in net.preprepares && pp.node == INITIAL_LEADER
    && var a := net.nodes[i];
       && a.m.cur == pp.at && a.m.leader == INITIAL_LEADER && a.m.proposal.None? && a.m.prepareSet == {}
       && VoteFor(pp, x) in a.heardPrepares
       && (forall v :: v in a.m.prepares ==> Below(pp.at, v.at))
  }

  /** The node hears the proposal again but not the vote: it is gone. */
  lemma Forgets(cfg: Config, net: Net, i: nat, pp: Preprepare, x: NodeId, test: Test) returns (es: seq<Event>)
    requires cfg.shardNum > 0 && Reached(cfg, net, test) && Lenient(test) && Correct(cfg, net, i) && Forgotten(net, i, pp, x)
    ensures LastCurated(cfg, es, i) && Throughout(cfg, es, test) && !NothingLostBy(cfg, es, i)
  {
    Extend(cfg, net, HearPreprepare(i, pp, true), test);
    var n2 := Next(cfg, net, HearPreprepare(i, pp, true));
    var e := Curate(i, Some(pp));
    assert Enabled(cfg, n2, e);
    var es0 :| Run(cfg, es0) == Some(n2) && Throughout(cfg, es0, test);
    es := es0 + [e];
    assert es[..|es| - 1] == es0;
    var n3 := Next(cfg, n2, e);
    assert Run(cfg, es) == Some(n3);
    hide Reached, Run;
    assert n3.nodes[i].m.prepareSet == {} && n3.nodes[i].m.proposal == Some(pp);
    assert VoteFor(pp, x) in n3.nodes[i].heardPrepares && x in Senders(n3.nodes[i].heardPrepares, pp.at, pp.digest);
  }

  /** A correct node in round k waits for an answer; it has heard a vote for the proposal of round j that is no longer in its pool. */
  ghost predicate Exposed(cfg: Config, net: Net, i: nat, k: nat, j: nat, x: NodeId) {
    && Correct(cfg, net, i) && RoundProposal(j) in net.preprepares
    && var a := net.nodes[i];
       && a.m.cur == Round(k) && a.m.leader == INITIAL_LEADER && a.m.catchupStarted
       && VoteFor(RoundProposal(j), x) in a.heardPrepares
       && (forall v :: v in a.m.prepares ==> Below(Round(j), v.at))
  }

  /** Back in round j, the vote that the node has counted before is gone. */
  lemma Loses(cfg: Config, net: Net, a: Answer, k: nat, j: nat, x: NodeId, guard: Guard) returns (es: seq<Event>)
    requires cfg.shardNum > 0 && guard(k, j) && Reached(cfg, net, Guarded(cfg, guard)) && Exposed(cfg, net, a.dest, k, j, x)
    requires a in net.answers && a.resp.next == Round(j) && Adopts(cfg, net.nodes[a.dest], a.resp)
    ensures LastCurated(cfg, es, a.dest) && Throughout(cfg, es, Guarded(cfg, guard)) && !NothingLostBy(cfg, es, a.dest)
  {
    GuardedIsLenient(cfg, guard);
    Extend(cfg, net, Receive(a), Guarded(cfg, guard));
    hide Reached, Lenient, ExtendedAll;
    var n1 := Next(cfg, net, Receive(a));
    es := Forgets(cfg, n1, a.dest, RoundProposal(j), x, Guarded(cfg, guard));
  }

  /** In its present round, the node hears its own vote and counts it. */
  lemma CountsOwnVote(cfg: Config, net: Net, i: nat, k: nat, test: Test) returns (net': Net)
    requires IsConfig(cfg) && Lenient(test) && Reached(cfg, net, test)
    requires 0 < i && AtRound(cfg, net, i, k) && net.nodes[i].m.catchupStarted && RoundProposal(k) in net.preprepares
    ensures Reached(cfg, net', test) && Evolved(net, net', {i}) && Exposed(cfg, net', i, k, k, i) && net'.nodes[i].chain == net.nodes[i].chain
  {
    hide Reached, Lenient;
    var pp := RoundProposal(k);
    var n2 := PrepareOne(cfg, net, i, pp, test);
    var n3 := HearPrepares(cfg, n2, i, pp, {i}, test);
    assert VoteFor(pp, i) in n3.nodes[i].heardPrepares;
    hide AllVoted;
    Goes(cfg, n3, Curate(i, None), test);
    net' := Next(cfg, n3, Curate(i, None));
  }

  lemma ExposedNow(cfg: Config, net: Net, i: nat, k: nat, s: set<NodeId>, test: Test) returns (net': Net)
    requires IsConfig(cfg) && Lenient(test) && Reached(cfg, net, test) && |net.nodes| == cfg.n && MayPropose(cfg, net, k)
    requires 0 < i < cfg.n && InRound(cfg, net, i, k, s) && net.nodes[i].m.catchupStarted
    ensures Reached(cfg, net', test) && net.answers <= net'.answers && Exposed(cfg, net', i, k, k, i)
  {
    var n1 := GetsProposed(cfg, net, k, test);
    hide Reached, Lenient, LineChain, LineBlock, Exposed;
    net' := CountsOwnVote(cfg, n1, i, k, test);
  }

  lemma ExposedInPast(cfg: Config, net: Net, i: nat, k: nat, j: nat, s: set<NodeId>, x: NodeId)
    requires Correct(cfg, net, i) && InRound(cfg, net, i, k, s) && x in s && j < k && Sent(net, j, s) && net.nodes[i].m.catchupStarted
    ensures Exposed(cfg, net, i, k, j, x)
  {
    assert AllVoted(net.nodes[i].heardPrepares, RoundProposal(j), s);
    assert VoteFor(RoundProposal(j), x) in net.nodes[i].heardPrepares;
    forall v | v in net.nodes[i].m.prepares ensures Below(Round(j), v.at) {
      CompareIsTotalOrder(Round(j), Round(k), v.at);
    }
  }

  /** The node asks in round j and is answered in round k. */
  lemma AnswerComesLate(cfg: Config, p: nat, x: NodeId, j: nat, k: nat, test: Test) returns (net: Net, a: Answer)
    requires IsConfig(cfg) && Lenient(test) && 0 < p < cfg.n && p !in cfg.faulty && x in cfg.faulty && j <= k
    ensures Reached(cfg, net, test) && |net.nodes| == cfg.n && net.nodes[p].m.catchupStarted && MayPropose(cfg, net, k)
    ensures forall i :: i in CorrectNodes(cfg) ==> InRound(cfg, net, i, k, cfg.faulty + CorrectNodes(cfg))
    ensures forall r: nat :: j <= r < k ==> Sent(net, r, cfg.faulty + CorrectNodes(cfg))
    ensures a in net.answers && a.dest == p && a.resp == CatchupResp([], Round(j), INITIAL_LEADER)
  {
    var g := CorrectNodes(cfg);
    var s := cfg.faulty + g;
    CorrectCount(cfg);
    FirstRound(cfg, s, test);
    assert p in g && (0 in cfg.faulty || 0 in g);
    hide Reached, Lenient, InRound, CorrectNodes, Start, MayPropose;
    var n1 := Rounds(cfg, Start(cfg), g, 0, j, s, test);
    var n2, answer := AskedInRound(cfg, n1, p, x, j, s, test);
    a := answer;
    net := Rounds(cfg, n2, g, j, k, s, test);
  }

  /** Every round that is not strictly later can be made to lose votes, whether the leader is correct or not. */
  lemma LosingRun(cfg: Config, guard: Guard, k: nat, j: nat, p: nat, x: NodeId) returns (es: seq<Event>)
    requires IsConfig(cfg) && 0 < p < cfg.n && p !in cfg.faulty && x in cfg.faulty && guard(k, j) && j <= k
    ensures LastCurated(cfg, es, p) && Throughout(cfg, es, Guarded(cfg, guard)) && !NothingLostBy(cfg, es, p)
  {
    GuardedIsLenient(cfg, guard);
    hide Reached, Lenient, ExtendedAll;
    var net, a := ExposedLate(cfg, p, x, j, k, Guarded(cfg, guard));
    EmptyIsAdopted(cfg, net.nodes[p], a.resp);
    es := Loses(cfg, net, a, k, j, p, guard);
  }

  lemma EmptyIsAdopted(cfg: Config, a: Node, resp: CatchupResp)
    requires cfg.shardNum > 0 && IsWanted(a, resp) && resp.blocks == []
    ensures Adopts(cfg, a, resp)
  {
  }

  /** When the answer comes, the node has counted a vote of the round that it names. */
  lemma ExposedLate(cfg: Config, p: nat, x: NodeId, j: nat, k: nat, test: Test) returns (net: Net, a: Answer)
    requires IsConfig(cfg) && Lenient(test) && 0 < p < cfg.n && p !in cfg.faulty && x in cfg.faulty && j <= k
    ensures Reached(cfg, net, test) && Exposed(cfg, net, p, k, j, p)
    ensures a in net.answers && a.dest == p && a.resp == CatchupResp([], Round(j), INITIAL_LEADER)
  {
    hide Reached, Lenient, MayPropose;
    var s := cfg.faulty + CorrectNodes(cfg);
    var n1, answer := AnswerComesLate(cfg, p, x, j, k, test);
    net, a := n1, answer;
    assert p in s && InRound(cfg, net, p, k, s);
    hide InRound, CorrectNodes, Exposed;
    if j < k {
      assert Sent(net, j, s);
      ExposedInPast(cfg, net, p, k, j, s, p);
    } else {
      net := ExposedNow(cfg, net, p, k, s, test);
    }
  }

}
