/** The first two phases of PBFT: what stands behind a prepare vote, a commit vote and a decision, in every run at all. */
module PbftPrepared {
  import opened Prelude
  import opened Accounts
  import opened ViewSeqs
  import opened MsgPools
  import opened PbftMeta
  import opened PbftSystem
  import opened PbftAgreement
  import opened PbftSplit
  import opened Chain

  /** The node has been sent this proposal and found it valid. */
  ghost predicate Validated(es: seq<Event>, i: nat, pp: Preprepare) { HearPreprepare(i, pp, true) in es }

  /** The vote is for a proposal of the leader that its sender has validated. */
  ghost predicate IsBased(es: seq<Event>, v: Vote) {
    exists i: nat, pp :: Validated(es, i, pp) && i == v.node && pp.at == v.at && pp.digest == v.digest && pp.node == INITIAL_LEADER
  }

  /** A quorum of prepare votes of the same round and digest has been sent. */
  ghost predicate IsPrepared(cfg: Config, net: Net, v: Vote) {
    exists q: set<NodeId> :: |q| >= 2 * FaultBound(cfg.n) + 1 && AllPrepared(net.prepares, v, q)
  }

  ghost predicate AllPrepared(prepares: set<Vote>, v: Vote, q: set<NodeId>) {
    forall x :: x in q ==> Vote(v.at, v.digest, x) in prepares
  }

  // ----------------------------------------------------------------------- the trail of a node

  /** The round machine: what it holds was heard, and what it has reached was voted for. */
  ghost predicate RoundTrail(cfg: Config, es: seq<Event>, net: Net, i: nat)
    requires i < |net.nodes|
  {
    var m := net.nodes[i].m;
    && m.f == FaultBound(cfg.n) && m.leader == INITIAL_LEADER
    && (m.stage == StagePreprepare || m.stage == StagePrepare || m.stage == StageCommit)
    && (m.stage != StagePreprepare ==> m.proposal.Some? && Vote(m.cur, m.proposal.value.digest, i) in net.prepares)
    && (m.stage == StageCommit ==> Vote(m.cur, m.proposal.value.digest, i) in net.commits)
    && (forall pp :: pp in m.preprepares ==> Validated(es, i, pp))
    && (m.proposal.Some? ==> Validated(es, i, m.proposal.value) && m.proposal.value.at == m.cur && m.proposal.value.node == INITIAL_LEADER)
    && m.prepares <= net.prepares
    && (forall x :: x in m.prepareSet ==> m.proposal.Some? && Vote(m.cur, m.proposal.value.digest, x) in net.prepares)
  }

  /** The votes and decisions of the node. */
  ghost predicate VoteTrail(cfg: Config, es: seq<Event>, net: Net, i: nat)
    requires i < |net.nodes|
  {
    && (forall v :: v in net.prepares && v.node == i ==> IsBased(es, v))
    && (forall v :: v in net.commits && v.node == i ==> IsPrepared(cfg, net, v) && v in net.prepares)
    && (forall pp :: pp in net.nodes[i].decided ==> Validated(es, i, pp) && Vote(pp.at, pp.digest, i) in net.commits)
  }

  ghost predicate Trail(cfg: Config, es: seq<Event>, net: Net, i: nat)
    requires i < |net.nodes|
  {
    RoundTrail(cfg, es, net, i) && VoteTrail(cfg, es, net, i)
  }

  lemma BasedLater(es: seq<Event>, e: Event, v: Vote)
    requires IsBased(es, v)
    ensures IsBased(es + [e], v)
  {
    var i: nat, pp :| Validated(es, i, pp) && i == v.node && pp.at == v.at && pp.digest == v.digest && pp.node == INITIAL_LEADER;
    assert Validated(es + [e], i, pp);
  }

  lemma PreparedLater(cfg: Config, net: Net, net': Net, v: Vote)
    requires IsPrepared(cfg, net, v) && net.prepares <= net'.prepares
    ensures IsPrepared(cfg, net', v)
  {
    var q: set<NodeId> :| |q| >= 2 * FaultBound(cfg.n) + 1 && AllPrepared(net.prepares, v, q);
    assert AllPrepared(net'.prepares, v, q);
  }

  /** More messages, none of them in the name of this node, and no decision. */
  lemma VotesLater(cfg: Config, es: seq<Event>, e: Event, net: Net, net': Net, i: nat)
    requires i < |net.nodes| == |net'.nodes| && VoteTrail(cfg, es, net, i) && net'.nodes[i].decided == net.nodes[i].decided
    requires net.prepares <= net'.prepares && net.commits <= net'.commits
    requires forall v: Vote :: v.node == i && v in net'.prepares ==> v in net.prepares
    requires forall v: Vote :: v.node == i && v in net'.commits ==> v in net.commits
    ensures VoteTrail(cfg, es + [e], net', i)
  {
    forall v | v in net'.prepares && v.node == i ensures IsBased(es + [e], v) { BasedLater(es, e, v); }
    forall v | v in net'.commits && v.node == i ensures IsPrepared(cfg, net', v) { PreparedLater(cfg, net, net', v); }
    hide IsBased, IsPrepared;
  }

  lemma RoundLater(cfg: Config, es: seq<Event>, e: Event, net: Net, net': Net, i: nat)
    requires i < |net.nodes| == |net'.nodes| && RoundTrail(cfg, es, net, i) && net'.nodes[i].m == net.nodes[i].m
    requires net.prepares <= net'.prepares && net.commits <= net'.commits
    ensures RoundTrail(cfg, es + [e], net', i)
  {
  }

  // -------------------------------------------------------------------------------- the events

  /** An event of somebody else. */
  lemma OthersTrail(cfg: Config, es: seq<Event>, net: Net, e: Event, i: nat)
    requires Enabled(cfg, net, e) && i < |net.nodes| && i !in cfg.faulty && Trail(cfg, es, net, i)
    requires |Next(cfg, net, e).nodes| == |net.nodes| && Next(cfg, net, e).nodes[i] == net.nodes[i]
    requires e.Step? ==> e.i != i
    ensures Trail(cfg, es + [e], Next(cfg, net, e), i)
  {
    var net' := Next(cfg, net, e);
    hide RoundTrail, VoteTrail, Stepped, HeardPreprepare, HeardPrepare, HeardCommit, Curated, Proposed, Replied, ReceivedNode, DecidedNode;
    VotesLater(cfg, es, e, net, net', i);
    RoundLater(cfg, es, e, net, net', i);
  }

  lemma CuratedTrail(cfg: Config, es: seq<Event>, net: Net, i: nat, choice: Option<Preprepare>)
    requires Enabled(cfg, net, Curate(i, choice)) && RoundTrail(cfg, es, net, i)
    ensures RoundTrail(cfg, es + [Curate(i, choice)], Next(cfg, net, Curate(i, choice)), i)
  {
    var m := net.nodes[i].m;
    var m1 := WithProposal(m, choice);
    if m1.proposal.Some? {
      forall x | x in Senders(m1.prepares, m1.cur, m1.proposal.value.digest)
        ensures Vote(m1.cur, m1.proposal.value.digest, x) in net.prepares
      {
        var v :| v in m1.prepares && v.at == m1.cur && v.digest == m1.proposal.value.digest && v.node == x;
        assert v == Vote(m1.cur, m1.proposal.value.digest, x);
      }
    }
  }

  /** Only the round machine of this node changes, and no stage or decision in it. */
  lemma OwnTrail(cfg: Config, es: seq<Event>, net: Net, e: Event, i: nat)
    requires Enabled(cfg, net, e) && i < |net.nodes| && i !in cfg.faulty && Trail(cfg, es, net, i)
    requires !e.Step?
    ensures i < |Next(cfg, net, e).nodes| && Trail(cfg, es + [e], Next(cfg, net, e), i)
  {
    var net' := Next(cfg, net, e);
    assert net'.nodes[i].decided == net.nodes[i].decided by {
      hide HeardPreprepare, HeardPrepare, HeardCommit, Curated, Proposed, Replied, ExtendedAll;
    }
    QuietVotes(cfg, net, e);
    VotesLater(cfg, es, e, net, net', i);
    hide VoteTrail;
    match e
    case Curate(j, choice) => if j == i { CuratedTrail(cfg, es, net, i, choice); } else { RoundLater(cfg, es, e, net, net', i); }
    case Receive(a) =>
      hide ExtendedAll;
      assert forall pp :: pp in net.nodes[i].m.preprepares ==> Validated(es, i, pp) && Validated(es + [e], i, pp);
    case HearPreprepare(j, pp, valid) => if j == i { HeardTrail(cfg, es, net, i, pp, valid); } else { RoundLater(cfg, es, e, net, net', i); }
    case HearPrepare(j, v) => RoundHeard(cfg, es, net, e, i);
    case HearCommit(j, v) => RoundHeard(cfg, es, net, e, i);
    case Propose(_, _) => hide Proposed; RoundSame(cfg, es, net, e, i);
    case Ask(_) => RoundSame(cfg, es, net, e, i);
    case _ => RoundLater(cfg, es, e, net, net', i);
  }

  lemma RoundSame(cfg: Config, es: seq<Event>, net: Net, e: Event, i: nat)
    requires Enabled(cfg, net, e) && i < |net.nodes| && RoundTrail(cfg, es, net, i) && (e.Propose? || e.Ask?)
    ensures i < |Next(cfg, net, e).nodes| && RoundTrail(cfg, es + [e], Next(cfg, net, e), i)
  {
    hide Proposed, Replica.Height;
    assert forall pp :: Validated(es, i, pp) ==> Validated(es + [e], i, pp);
  }

  lemma RoundHeard(cfg: Config, es: seq<Event>, net: Net, e: Event, i: nat)
    requires Enabled(cfg, net, e) && i < |net.nodes| && RoundTrail(cfg, es, net, i) && (e.HearPrepare? || e.HearCommit?)
    ensures i < |Next(cfg, net, e).nodes| && RoundTrail(cfg, es + [e], Next(cfg, net, e), i)
  {
    assert forall pp :: Validated(es, i, pp) ==> Validated(es + [e], i, pp);
  }

  lemma HeardTrail(cfg: Config, es: seq<Event>, net: Net, i: nat, pp: Preprepare, valid: bool)
    requires Enabled(cfg, net, HearPreprepare(i, pp, valid)) && RoundTrail(cfg, es, net, i)
    ensures RoundTrail(cfg, es + [HearPreprepare(i, pp, valid)], Next(cfg, net, HearPreprepare(i, pp, valid)), i)
  {
    var es' := es + [HearPreprepare(i, pp, valid)];
    assert forall q :: Validated(es, i, q) ==> Validated(es', i, q);
    assert valid ==> Validated(es', i, pp) by { assert es'[|es|] == HearPreprepare(i, pp, valid); }
  }

  /** Only stage transitions send votes of correct nodes. */
  lemma QuietVotes(cfg: Config, net: Net, e: Event)
    requires Enabled(cfg, net, e) && !e.Step?
    ensures var net' := Next(cfg, net, e);
            && net.prepares <= net'.prepares && net.commits <= net'.commits
            && (forall v :: v in net'.prepares && v !in net.prepares ==> v.node in cfg.faulty)
            && (forall v :: v in net'.commits && v !in net.commits ==> v.node in cfg.faulty)
  {
    hide HeardPreprepare, HeardPrepare, HeardCommit, Curated, Proposed, Replied, ReceivedNode;
  }

  lemma StepsTrail(cfg: Config, es: seq<Event>, net: Net, i: nat)
    requires Enabled(cfg, net, Step(i)) && i !in cfg.faulty && Trail(cfg, es, net, i)
    ensures i < |Next(cfg, net, Step(i)).nodes| && Trail(cfg, es + [Step(i)], Next(cfg, net, Step(i)), i)
  {
    var m, net' := net.nodes[i].m, Next(cfg, net, Step(i));
    if Stepped(m).value.stage == m.stage {
      assert net' == net;
      RoundLater(cfg, es, Step(i), net, net', i);
      VotesLater(cfg, es, Step(i), net, net', i);
    } else {
      match m.stage
      case StagePreprepare => PrepareTrail(cfg, es, net, i);
      case StagePrepare => CommitTrail(cfg, es, net, i);
      case StageCommit => DecideTrail(cfg, es, net, i);
    }
  }

  lemma PrepareTrail(cfg: Config, es: seq<Event>, net: Net, i: nat)
    requires Enabled(cfg, net, Step(i)) && Trail(cfg, es, net, i)
    requires net.nodes[i].m.stage == StagePreprepare && net.nodes[i].m.proposal.Some?
    ensures i < |Next(cfg, net, Step(i)).nodes| && Trail(cfg, es + [Step(i)], Next(cfg, net, Step(i)), i)
  {
    var m, net', es' := net.nodes[i].m, Next(cfg, net, Step(i)), es + [Step(i)];
    var vote := Vote(m.cur, m.proposal.value.digest, i);
    assert forall pp :: Validated(es, i, pp) ==> Validated(es', i, pp);
    assert Validated(es', i, m.proposal.value);
    assert IsBased(es', vote);
    forall v | v in net'.prepares && v.node == i ensures IsBased(es', v) {
      if v != vote { BasedLater(es, Step(i), v); }
    }
    forall v | v in net'.commits && v.node == i ensures IsPrepared(cfg, net', v) { PreparedLater(cfg, net, net', v); }
    hide IsBased, IsPrepared;
  }

  lemma CommitTrail(cfg: Config, es: seq<Event>, net: Net, i: nat)
    requires Enabled(cfg, net, Step(i)) && Trail(cfg, es, net, i)
    requires net.nodes[i].m.stage == StagePrepare && Stepped(net.nodes[i].m).value.stage != StagePrepare
    ensures i < |Next(cfg, net, Step(i)).nodes| && Trail(cfg, es + [Step(i)], Next(cfg, net, Step(i)), i)
  {
    var m, net', es' := net.nodes[i].m, Next(cfg, net, Step(i)), es + [Step(i)];
    var vote := Vote(m.cur, m.proposal.value.digest, i);
    assert AllPrepared(net'.prepares, vote, m.prepareSet);
    assert IsPrepared(cfg, net', vote);
    forall v | v in net'.prepares && v.node == i ensures IsBased(es', v) { BasedLater(es, Step(i), v); }
    forall v | v in net'.commits && v.node == i ensures IsPrepared(cfg, net', v) {
      if v != vote { PreparedLater(cfg, net, net', v); }
    }
    assert forall pp :: Validated(es, i, pp) ==> Validated(es', i, pp);
    hide IsBased, IsPrepared;
  }

  lemma DecideTrail(cfg: Config, es: seq<Event>, net: Net, i: nat)
    requires Enabled(cfg, net, Step(i)) && Trail(cfg, es, net, i)
    requires net.nodes[i].m.stage == StageCommit && Stepped(net.nodes[i].m).value.stage != StageCommit
    ensures i < |Next(cfg, net, Step(i)).nodes| && Trail(cfg, es + [Step(i)], Next(cfg, net, Step(i)), i)
  {
    var net', es' := Next(cfg, net, Step(i)), es + [Step(i)];
    hide Extended;
    assert net'.prepares == net.prepares && net'.commits == net.commits;
    forall v | v in net'.prepares && v.node == i ensures IsBased(es', v) { BasedLater(es, Step(i), v); }
    forall v | v in net'.commits && v.node == i ensures IsPrepared(cfg, net', v) { PreparedLater(cfg, net, net', v); }
    assert forall pp :: Validated(es, i, pp) ==> Validated(es', i, pp);
    hide IsBased, IsPrepared;
  }

  lemma {:induction false} RunTrail(cfg: Config, es: seq<Event>, i: nat)
    requires IsConfig(cfg) && Run(cfg, es).Some? && i < cfg.n && i !in cfg.faulty
    ensures |Run(cfg, es).value.nodes| == cfg.n && Trail(cfg, es, Run(cfg, es).value, i)
  {
    if es != [] {
      var most, e := es[..|es| - 1], es[|es| - 1];
      assert es == most + [e];
      RunTrail(cfg, most, i);
      var net := Run(cfg, most).value;
      hide Trail;
      SameNodes(cfg, net, e);
      if !e.Step? {
        OwnTrail(cfg, most, net, e, i);
      } else if e.i == i {
        StepsTrail(cfg, most, net, i);
      } else {
        OthersTrail(cfg, most, net, e, i);
      }
    }
  }

  lemma SameNodes(cfg: Config, net: Net, e: Event)
    requires Enabled(cfg, net, e)
    ensures |Next(cfg, net, e).nodes| == |net.nodes|
    ensures e.Step? ==> forall i :: 0 <= i < |net.nodes| && i != e.i ==> Next(cfg, net, e).nodes[i] == net.nodes[i]
  {
    hide HeardPreprepare, HeardPrepare, HeardCommit, Curated, Proposed, Replied, ReceivedNode, DecidedNode, Stepped;
  }

  // ------------------------------------------------------------------------------- theorems

  /**
   * Nobody correct sends a commit vote before a quorum has prepared: in every run at all, rounds adopted backwards
   * included, at least 2f+1 nodes have sent prepare votes for its round and digest, among them the sender.
   */
  lemma CommitVotesArePrepared(cfg: Config, es: seq<Event>, net: Net, v: Vote) returns (q: set<NodeId>)
    requires IsConfig(cfg) && Run(cfg, es) == Some(net)
    requires v in net.commits && 0 <= v.node < cfg.n && v.node !in cfg.faulty
    ensures |q| >= 2 * FaultBound(cfg.n) + 1 && forall x :: x in q ==> Vote(v.at, v.digest, x) in net.prepares
    ensures v in net.prepares
  {
    RunTrail(cfg, es, v.node);
    q :| |q| >= 2 * FaultBound(cfg.n) + 1 && AllPrepared(net.prepares, v, q);
  }

  /** Nobody correct sends a prepare vote but for a proposal in the leader's name that it has been sent and found valid. */
  lemma PrepareVotesAreBased(cfg: Config, es: seq<Event>, net: Net, v: Vote) returns (pp: Preprepare)
    requires IsConfig(cfg) && Run(cfg, es) == Some(net)
    requires v in net.prepares && 0 <= v.node < cfg.n && v.node !in cfg.faulty
    ensures HearPreprepare(v.node, pp, true) in es && pp.at == v.at && pp.digest == v.digest && pp.node == INITIAL_LEADER
  {
    RunTrail(cfg, es, v.node);
    var i: nat, p :| Validated(es, i, p) && i == v.node && p.at == v.at && p.digest == v.digest && p.node == INITIAL_LEADER;
    pp := p;
  }

  /** Nobody correct decides but on a proposal it has found valid, has voted to commit, and that a quorum has prepared. */
  lemma DecisionsAreValidated(cfg: Config, es: seq<Event>, net: Net, i: nat, pp: Preprepare) returns (q: set<NodeId>)
    requires IsConfig(cfg) && Run(cfg, es) == Some(net) && i < cfg.n && i !in cfg.faulty
    requires i < |net.nodes| && pp in net.nodes[i].decided
    ensures HearPreprepare(i, pp, true) in es && Vote(pp.at, pp.digest, i) in net.commits
    ensures |q| >= 2 * FaultBound(cfg.n) + 1 && forall x :: x in q ==> Vote(pp.at, pp.digest, x) in net.prepares
  {
    RunTrail(cfg, es, i);
    q := CommitVotesArePrepared(cfg, es, net, Vote(pp.at, pp.digest, i));
  }

  /** A correct node votes to prepare one digest a round. */
  ghost predicate PreparesOnce(cfg: Config, net: Net) {
    forall v, w :: v in net.prepares && w in net.prepares && v.node == w.node && v.node !in cfg.faulty && v.at == w.at ==> v == w
  }

  lemma StepPreparesOnce(cfg: Config, net: Net, e: Event)
    requires Inv(cfg, net) && Enabled(cfg, net, e) && PreparesOnce(cfg, net)
    ensures PreparesOnce(cfg, Next(cfg, net, e))
  {
    if e.Step? {
      assert NodeOk(cfg, net, e.i) && RoundOk(cfg, net, e.i) && OwnVotesOk(net, e.i);
      hide NodeOk, LeaderOk, DecidedNode;
    } else {
      QuietVotes(cfg, net, e);
      hide Next, Inv;
    }
  }

  lemma {:induction false} RunPreparesOnce(cfg: Config, es: seq<Event>)
    requires IsConfig(cfg) && Run(cfg, es).Some? && Throughout(cfg, es, Forward(cfg))
    ensures PreparesOnce(cfg, Run(cfg, es).value)
  {
    if es != [] {
      RunPreparesOnce(cfg, es[..|es| - 1]);
      RunKeepsInv(cfg, es[..|es| - 1]);
      StepPreparesOnce(cfg, Run(cfg, es[..|es| - 1]).value, es[|es| - 1]);
    }
  }

  ghost predicate CommitVote(cfg: Config, net: Net, v: Vote) { v in net.commits && 0 <= v.node < cfg.n && v.node !in cfg.faulty }

  /** What was heard had been sent. */
  lemma {:induction false} HeardWasSent(cfg: Config, es: seq<Event>, i: nat, pp: Preprepare)
    requires Run(cfg, es).Some? && Validated(es, i, pp)
    ensures pp in Run(cfg, es).value.preprepares
  {
    var most, e := es[..|es| - 1], es[|es| - 1];
    assert es == most + [e];
    var net := Run(cfg, most).value;
    if e == HearPreprepare(i, pp, true) {
      assert pp in net.preprepares;
    } else {
      HeardWasSent(cfg, most, i, pp);
    }
    MorePreprepares(cfg, net, e);
  }

  lemma MorePreprepares(cfg: Config, net: Net, e: Event)
    requires Enabled(cfg, net, e)
    ensures net.preprepares <= Next(cfg, net, e).preprepares
  {
    hide HeardPreprepare, HeardPrepare, HeardCommit, Curated, Proposed, Replied, ReceivedNode, DecidedNode, Stepped;
  }

  /** The leader has sent a proposal for the round it is in. */
  ghost predicate HasProposed(net: Net)
    requires net.nodes != []
  {
    exists pp :: pp in net.preprepares && pp.at == net.nodes[0].m.cur && pp.node == INITIAL_LEADER
  }

  lemma ProposedLater(cfg: Config, net: Net, e: Event)
    requires Enabled(cfg, net, e) && net.nodes != [] && (net.nodes[0].m.proposed ==> HasProposed(net))
    ensures Next(cfg, net, e).nodes != []
    ensures Next(cfg, net, e).nodes[0].m.proposed ==> HasProposed(Next(cfg, net, e))
  {
    var net' := Next(cfg, net, e);
    MorePreprepares(cfg, net, e);
    if IsQuiet(e) {
      QuietRecord(cfg, net, e, 0);
    } else if e.Propose? {
      hide Applied;
      var pp := Proposed(cfg, net.nodes[0], e.digest, e.content);
      if pp.Some? { assert pp.value in net'.preprepares; }
    }
  }

  lemma {:induction false} ProposedIsSent(cfg: Config, es: seq<Event>)
    requires IsConfig(cfg) && Run(cfg, es).Some?
    ensures Run(cfg, es).value.nodes != [] && (Run(cfg, es).value.nodes[0].m.proposed ==> HasProposed(Run(cfg, es).value))
  {
    if es != [] {
      var most, e := es[..|es| - 1], es[|es| - 1];
      ProposedIsSent(cfg, most);
      hide HasProposed;
      ProposedLater(cfg, Run(cfg, most).value, e);
    }
  }

  /** A correct leader that waits for a proposal may propose exactly if it has not yet done so in this round. */
  lemma MayProposeExactlyWhen(cfg: Config, es: seq<Event>, net: Net, digest: Digest, content: Content)
    requires IsConfig(cfg) && Run(cfg, es) == Some(net) && Throughout(cfg, es, Forward(cfg)) && INITIAL_LEADER !in cfg.faulty
    requires net.nodes != [] && net.nodes[0].m.stage == StagePreprepare && net.nodes[0].chain.history != []
    ensures Enabled(cfg, net, Propose(digest, content)) <==> !HasProposed(net)
  {
    ProposedIsSent(cfg, es);
    RunKeepsInv(cfg, es);
  }

  /** No two correct nodes ever send commit votes for different digests in one round. */
  lemma CommitVotesAgree(cfg: Config, es: seq<Event>, net: Net, v: Vote, w: Vote)
    requires IsConfig(cfg) && Run(cfg, es) == Some(net) && Throughout(cfg, es, Forward(cfg)) && Safe(cfg)
    requires CommitVote(cfg, net, v) && CommitVote(cfg, net, w) && v.at == w.at
    ensures v.digest == w.digest
  {
    var a := CommitVotesArePrepared(cfg, es, net, v);
    var b := CommitVotesArePrepared(cfg, es, net, w);
    RunKeepsInv(cfg, es);
    if 0 in cfg.faulty {
      RunPreparesOnce(cfg, es);
      PreparersAreNodes(cfg, es);
      forall y | y in a + b ensures 0 <= y < cfg.n {
        assert Vote(v.at, v.digest, y) in net.prepares || Vote(w.at, w.digest, y) in net.prepares;
      }
      var x := QuorumsMeet(cfg.n, cfg.faulty, a, b);
      assert Vote(v.at, v.digest, x) in net.prepares && Vote(v.at, w.digest, x) in net.prepares;
    } else {
      var p := PrepareVotesAreBased(cfg, es, net, v);
      var q := PrepareVotesAreBased(cfg, es, net, w);
      HeardWasSent(cfg, es, v.node, p);
      HeardWasSent(cfg, es, w.node, q);
      assert LeaderOk(cfg, net);
    }
  }

  lemma {:induction false} PreparersAreNodes(cfg: Config, es: seq<Event>)
    requires IsConfig(cfg) && Run(cfg, es).Some?
    ensures |Run(cfg, es).value.nodes| == cfg.n && forall v :: v in Run(cfg, es).value.prepares ==> 0 <= v.node < cfg.n
  {
    if es != [] {
      var net, e := Run(cfg, es[..|es| - 1]).value, es[|es| - 1];
      PreparersAreNodes(cfg, es[..|es| - 1]);
      SameNodes(cfg, net, e);
      if !e.Step? { QuietVotes(cfg, net, e); }
      hide DecidedNode, Stepped;
    }
  }

  /** A run in which two correct nodes have sent commit votes in the same round. */
  ghost predicate BothCommit(cfg: Config, es: seq<Event>, v: Vote, w: Vote) {
    && Throughout(cfg, es, Forward(cfg)) && v.at == w.at
    && match Run(cfg, es) case None => false case Some(net) => CommitVote(cfg, net, v) && CommitVote(cfg, net, w)
  }

  /** In every run, any two commit votes of correct nodes in a round are for the same digest. */
  ghost predicate CommitVotesAlwaysAgree(cfg: Config) {
    forall es, v, w :: BothCommit(cfg, es, v, w) ==> v.digest == w.digest
  }

  lemma OneVoter(cfg: Config, es: seq<Event>, v: Vote, w: Vote)
    requires IsConfig(cfg) && cfg.n < |cfg.faulty| + 2 && BothCommit(cfg, es, v, w)
    ensures v.digest == w.digest
  {
    RunKeepsInv(cfg, es);
    OneAtMost(cfg, v.node, w.node);
  }

  /** The condition for commit votes is that for decisions: where it fails, correct nodes commit to different digests. */
  lemma CommitVotesAgreeExactlyWhen(cfg: Config)
    requires IsConfig(cfg)
    ensures CommitVotesAlwaysAgree(cfg) <==> (Safe(cfg) || cfg.n < |cfg.faulty| + 2)
  {
    if Safe(cfg) || cfg.n < |cfg.faulty| + 2 {
      forall es, v, w | BothCommit(cfg, es, v, w) ensures v.digest == w.digest
      {
        if Safe(cfg) { CommitVotesAgree(cfg, es, Run(cfg, es).value, v, w); } else { OneVoter(cfg, es, v, w); }
      }
    } else {
      var es, x, y, p, q := DisagreementOtherwise(cfg);
      var net := Run(cfg, es).value;
      RunKeepsInv(cfg, es);
      var _ := DecisionsAreValidated(cfg, es, net, x, p);
      var _ := DecisionsAreValidated(cfg, es, net, y, q);
      assert BothCommit(cfg, es, Vote(p.at, p.digest, x), Vote(q.at, q.digest, y));
    }
  }
}
