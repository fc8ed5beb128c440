/** PBFT with n nodes, some of them faulty: agreement, and no early message is lost. */
module PbftAgreement {
  import opened Prelude
  import opened Accounts
  import opened ViewSeqs
  import opened MsgPools
  import opened PbftMeta
  import opened PbftSystem
  import opened Chain

  // --------------------------------------------------------------------- invariants

  function Round(k: nat): ViewSeq { ViewSeq(0, k) }

  /** The round, the stage and the proposal fit together. */
  predicate RoundOk(cfg: Config, net: Net, i: nat)
    requires i < |net.nodes|
  {
    var a := net.nodes[i];
    && a.m.f == FaultBound(cfg.n) && a.m.leader == INITIAL_LEADER
    && (a.m.stage == StagePreprepare || a.m.stage == StagePrepare || a.m.stage == StageCommit)
    && (a.m.stage != StagePreprepare ==> a.m.proposal.Some?)
    && (a.m.proposal.Some? ==> IsProposalFor(a.m, a.m.proposal.value) && a.m.proposal.value in net.preprepares)
    && a.m.preprepares <= net.preprepares
  }

  /** Votes held back or counted are votes heard, and no vote that still matters is missing. */
  ghost predicate VotesKept(m: Meta, heard: set<Vote>, pool: set<Vote>, counted: set<NodeId>) {
    && pool <= heard
    && (forall x :: x in counted ==> m.proposal.Some? && Vote(m.cur, m.proposal.value.digest, x) in heard)
    && (forall v :: v in heard && Below(m.cur, v.at) ==> v in pool)
    && (forall v :: v in heard && v.at == m.cur && (m.proposal.Some? ==> v.digest == m.proposal.value.digest) ==>
          v in pool || v.node in counted)
  }

  /** A node's own votes: never ahead of its stage, and at most one digest a round. */
  ghost predicate OwnVotesOk(net: Net, i: nat)
    requires i < |net.nodes|
  {
    var m := net.nodes[i].m;
    && (forall v :: v in net.prepares && v.node == i ==>
          AtMost(v.at, m.cur) && (v.at == m.cur ==> m.stage != StagePreprepare && m.proposal.Some? && v.digest == m.proposal.value.digest))
    && (forall v :: v in net.commits && v.node == i ==>
          AtMost(v.at, m.cur) && (v.at == m.cur ==> m.stage == StageCommit && m.proposal.Some? && v.digest == m.proposal.value.digest))
  }

  /** A decision has a quorum of commit votes behind it, and is a proposal of the leader. */
  ghost predicate Backed(cfg: Config, net: Net, pp: Preprepare) {
    |Senders(net.commits, pp.at, pp.digest)| >= 2 * FaultBound(cfg.n) + 1 && pp in net.preprepares && pp.node == INITIAL_LEADER
  }

  ghost predicate NodeOk(cfg: Config, net: Net, i: nat)
    requires i < |net.nodes|
  {
    var a := net.nodes[i];
    && RoundOk(cfg, net, i)
    && a.heardPrepares <= net.prepares && a.heardCommits <= net.commits
    && VotesKept(a.m, a.heardPrepares, a.m.prepares, a.m.prepareSet)
    && VotesKept(a.m, a.heardCommits, a.m.commits, a.m.commitSet)
    && OwnVotesOk(net, i)
    && (forall pp :: pp in a.decided ==> Backed(cfg, net, pp) && Below(pp.at, a.m.cur))
  }

  /** A correct leader proposes at most once a round, and never asks to catch up. */
  ghost predicate LeaderOk(cfg: Config, net: Net)
    requires |net.nodes| > 0
  {
    0 !in cfg.faulty ==>
      && !net.nodes[0].m.catchupStarted
      && (forall pp :: pp in net.preprepares && pp.node == INITIAL_LEADER ==>
            AtMost(pp.at, net.nodes[0].m.cur) && (pp.at == net.nodes[0].m.cur ==> net.nodes[0].m.proposed || net.nodes[0].m.stage != StagePreprepare))
      && (forall p, q :: p in net.preprepares && q in net.preprepares && p.node == q.node == INITIAL_LEADER && p.at == q.at ==> p == q)
  }

  ghost predicate Inv(cfg: Config, net: Net) {
    && IsConfig(cfg) && |net.nodes| == cfg.n
    && (forall v :: v in net.commits ==> 0 <= v.node < cfg.n)
    && (forall v, w :: v in net.commits && w in net.commits && v.node == w.node && v.node !in cfg.faulty && v.at == w.at ==> v == w)
    && (forall i :: 0 <= i < cfg.n && i !in cfg.faulty ==> NodeOk(cfg, net, i))
    && LeaderOk(cfg, net)
  }

  lemma StartHolds(cfg: Config)
    requires IsConfig(cfg)
    ensures Inv(cfg, Start(cfg))
  {
  }

  lemma MoreSenders(votes: set<Vote>, more: set<Vote>, at: ViewSeq, digest: Digest)
    requires votes <= more
    ensures |Senders(votes, at, digest)| <= |Senders(more, at, digest)|
  {
    SubsetSize(Senders(votes, at, digest), Senders(more, at, digest));
  }

  lemma {:induction false} SubsetSize<T>(a: set<T>, b: set<T>)
    requires a <= b
    ensures |a| <= |b|
    decreases a
  {
    if a != {} {
      var x := SomeMember(a);
      SubsetSize(a - {x}, b - {x});
    }
  }

  lemma BackedGrows(cfg: Config, net: Net, net': Net, pp: Preprepare)
    requires Backed(cfg, net, pp) && net.commits <= net'.commits && net.preprepares <= net'.preprepares
    ensures Backed(cfg, net', pp)
  {
    MoreSenders(net.commits, net'.commits, pp.at, pp.digest);
  }

  /** A node that did not change is in order as long as no new vote carries its name. */
  lemma NodeGrows(cfg: Config, net: Net, net': Net, i: nat)
    requires i < |net.nodes| == |net'.nodes| && NodeOk(cfg, net, i) && net'.nodes[i] == net.nodes[i]
    requires net.preprepares <= net'.preprepares && net.prepares <= net'.prepares && net.commits <= net'.commits
    requires forall v :: v in net'.prepares - net.prepares || v in net'.commits - net.commits ==> v.node != i
    ensures NodeOk(cfg, net', i)
  {
    forall pp | pp in net.nodes[i].decided ensures Backed(cfg, net', pp) {
      BackedGrows(cfg, net, net', pp);
    }
    forall v | v in net'.prepares && v.node == i ensures v in net.prepares {
      assert v in net'.prepares - net.prepares || v in net.prepares;
    }
    forall v | v in net'.commits && v.node == i ensures v in net.commits {
      assert v in net'.commits - net.commits || v in net.commits;
    }
  }

  lemma OthersGrow(cfg: Config, net: Net, net': Net, i: nat)
    requires Inv(cfg, net) && |net'.nodes| == cfg.n
    requires forall j :: 0 <= j < cfg.n && j != i ==> net'.nodes[j] == net.nodes[j]
    requires net.preprepares <= net'.preprepares && net.prepares <= net'.prepares && net.commits <= net'.commits
    requires forall v :: v in net'.prepares - net.prepares || v in net'.commits - net.commits ==> v.node == i || v.node in cfg.faulty
    ensures forall j :: 0 <= j < cfg.n && j != i && j !in cfg.faulty ==> NodeOk(cfg, net', j)
  {
    forall j | 0 <= j < cfg.n && j != i && j !in cfg.faulty ensures NodeOk(cfg, net', j) {
      NodeGrows(cfg, net, net', j);
    }
  }

  // --------------------------------------------------------------------- the events

  lemma ForgeOk(cfg: Config, net: Net, e: Event)
    requires Inv(cfg, net) && Enabled(cfg, net, e) && (e.ForgePreprepare? || e.ForgePrepare? || e.ForgeCommit? || e.ForgeAnswer?)
    ensures Inv(cfg, Next(cfg, net, e))
  {
    var net' := Next(cfg, net, e);
    OthersGrow(cfg, net, net', cfg.n);
  }

  /** The decisions of a node stay backed while messages are only added. */
  lemma DecisionsStayBacked(cfg: Config, net: Net, net': Net, i: nat)
    requires i < |net.nodes| && NodeOk(cfg, net, i)
    requires net.preprepares <= net'.preprepares && net.commits <= net'.commits
    ensures forall pp :: pp in net.nodes[i].decided ==> Backed(cfg, net', pp)
  {
    forall pp | pp in net.nodes[i].decided ensures Backed(cfg, net', pp) {
      BackedGrows(cfg, net, net', pp);
    }
  }

  lemma HearPreprepareOk(cfg: Config, net: Net, e: Event)
    requires Inv(cfg, net) && Enabled(cfg, net, e) && e.HearPreprepare?
    ensures Inv(cfg, Next(cfg, net, e))
  {
    var net' := Next(cfg, net, e);
    OthersGrow(cfg, net, net', e.i);
    assert NodeOk(cfg, net, e.i);
    DecisionsStayBacked(cfg, net, net', e.i);
    hide Backed;
    assert NodeOk(cfg, net', e.i);
  }

  lemma HearPrepareOk(cfg: Config, net: Net, e: Event)
    requires Inv(cfg, net) && Enabled(cfg, net, e) && e.HearPrepare?
    ensures Inv(cfg, Next(cfg, net, e))
  {
    var net' := Next(cfg, net, e);
    OthersGrow(cfg, net, net', e.i);
    assert NodeOk(cfg, net, e.i);
    DecisionsStayBacked(cfg, net, net', e.i);
    var a, b := net.nodes[e.i], net'.nodes[e.i];
    HeardKeeps(a.m, b.m, a.heardPrepares, a.m.prepares, b.m.prepares, a.m.prepareSet, e.v);
    hide Backed;
    assert VotesKept(b.m, b.heardCommits, b.m.commits, b.m.commitSet);
    hide VotesKept;
    assert NodeOk(cfg, net', e.i);
  }

  lemma HearCommitOk(cfg: Config, net: Net, e: Event)
    requires Inv(cfg, net) && Enabled(cfg, net, e) && e.HearCommit?
    ensures Inv(cfg, Next(cfg, net, e))
  {
    var net' := Next(cfg, net, e);
    OthersGrow(cfg, net, net', e.i);
    assert NodeOk(cfg, net, e.i);
    DecisionsStayBacked(cfg, net, net', e.i);
    var a, b := net.nodes[e.i], net'.nodes[e.i];
    HeardKeeps(a.m, b.m, a.heardCommits, a.m.commits, b.m.commits, a.m.commitSet, e.v);
    hide Backed;
    assert VotesKept(b.m, b.heardPrepares, b.m.prepares, b.m.prepareSet);
    hide VotesKept;
    assert NodeOk(cfg, net', e.i);
  }

  /** A vote is put in the pool unless its round is over. */
  lemma HeardKeeps(m: Meta, m': Meta, heard: set<Vote>, pool: set<Vote>, pool': set<Vote>, counted: set<NodeId>, v: Vote)
    requires VotesKept(m, heard, pool, counted)
    requires m'.cur == m.cur && m'.proposal == m.proposal
    requires pool' == if m.cur.Compare(v.at) > 0 then pool else pool + {v}
    ensures VotesKept(m', heard + {v}, pool', counted)
  {
  }

  lemma CuratedKeeps(m: Meta, heard: set<Vote>, pool: set<Vote>, counted: set<NodeId>)
    requires VotesKept(m, heard, pool, counted) && m.proposal.Some?
    ensures VotesKept(m, heard, LaterVotes(pool, m.cur), counted + Senders(pool, m.cur, m.proposal.value.digest))
  {
    var digest := m.proposal.value.digest;
    forall v | v in heard && v.at == m.cur && v.digest == digest
      ensures v.node in counted + Senders(pool, m.cur, digest)
    {
    }
  }

  lemma CuratedVotes(m: Meta, choice: Option<Preprepare>, heardPrepares: set<Vote>, heardCommits: set<Vote>)
    requires VotesKept(m, heardPrepares, m.prepares, m.prepareSet) && VotesKept(m, heardCommits, m.commits, m.commitSet)
    ensures var m' := Curated(m, choice);
            VotesKept(m', heardPrepares, m'.prepares, m'.prepareSet) && VotesKept(m', heardCommits, m'.commits, m'.commitSet)
  {
    var m1 := WithProposal(m, choice);
    assert VotesKept(m1, heardPrepares, m1.prepares, m1.prepareSet);
    assert VotesKept(m1, heardCommits, m1.commits, m1.commitSet);
    if m1.proposal.Some? {
      CuratedKeeps(m1, heardPrepares, m1.prepares, m1.prepareSet);
      CuratedKeeps(m1, heardCommits, m1.commits, m1.commitSet);
      SameRound(m1, Curated(m, choice), heardPrepares, LaterVotes(m1.prepares, m1.cur), Curated(m, choice).prepareSet);
      SameRound(m1, Curated(m, choice), heardCommits, LaterVotes(m1.commits, m1.cur), Curated(m, choice).commitSet);
    }
  }

  lemma SameRound(m: Meta, m': Meta, heard: set<Vote>, pool: set<Vote>, counted: set<NodeId>)
    requires VotesKept(m, heard, pool, counted) && m'.cur == m.cur && m'.proposal == m.proposal
    ensures VotesKept(m', heard, pool, counted)
  {
  }

  lemma CurateOk(cfg: Config, net: Net, i: nat, choice: Option<Preprepare>)
    requires Inv(cfg, net) && Enabled(cfg, net, Curate(i, choice))
    ensures Inv(cfg, Next(cfg, net, Curate(i, choice)))
  {
    var net' := Next(cfg, net, Curate(i, choice));
    OthersGrow(cfg, net, net', i);
    var a := net.nodes[i];
    assert NodeOk(cfg, net, i);
    CuratedVotes(a.m, choice, a.heardPrepares, a.heardCommits);
    DecisionsStayBacked(cfg, net, net', i);
    hide Backed, VotesKept;
    assert RoundOk(cfg, net', i);
    assert OwnVotesOk(net', i);
    assert NodeOk(cfg, net', i);
  }

  lemma ProposeOk(cfg: Config, net: Net, digest: Digest, content: Content)
    requires Inv(cfg, net) && Enabled(cfg, net, Propose(digest, content))
    ensures Inv(cfg, Next(cfg, net, Propose(digest, content)))
  {
    var net' := Next(cfg, net, Propose(digest, content));
    if Proposed(cfg, net.nodes[0], digest, content).Some? {
      OthersGrow(cfg, net, net', 0);
      assert NodeOk(cfg, net, 0);
      DecisionsStayBacked(cfg, net, net', 0);
    }
  }

  lemma AskOk(cfg: Config, net: Net, i: nat)
    requires Inv(cfg, net) && Enabled(cfg, net, Ask(i))
    ensures Inv(cfg, Next(cfg, net, Ask(i)))
  {
    var net' := Next(cfg, net, Ask(i));
    OthersGrow(cfg, net, net', i);
    assert NodeOk(cfg, net, i);
    DecisionsStayBacked(cfg, net, net', i);
    SameRound(net.nodes[i].m, net'.nodes[i].m, net.nodes[i].heardPrepares, net.nodes[i].m.prepares, net.nodes[i].m.prepareSet);
    SameRound(net.nodes[i].m, net'.nodes[i].m, net.nodes[i].heardCommits, net.nodes[i].m.commits, net.nodes[i].m.commitSet);
    hide Backed, VotesKept, Replica.Height;
    assert NodeOk(cfg, net', i);
  }

  lemma ReplyOk(cfg: Config, net: Net, r: Request)
    requires Inv(cfg, net) && Enabled(cfg, net, Reply(r))
    ensures Inv(cfg, Next(cfg, net, Reply(r)))
  {
    OthersGrow(cfg, net, Next(cfg, net, Reply(r)), cfg.n);
  }

  /** An adopted round that is strictly later finds all its votes still in the pool; the leader adopts none. */
  lemma ReceiveOk(cfg: Config, net: Net, a: Answer)
    requires Inv(cfg, net) && Enabled(cfg, net, Receive(a)) && Forward(cfg)(net, Receive(a))
    ensures Inv(cfg, Next(cfg, net, Receive(a)))
  {
    var net' := Next(cfg, net, Receive(a));
    var i := a.dest;
    var x, y := net.nodes[i], net'.nodes[i];
    hide ExtendedAll;
    OthersGrow(cfg, net, net', i);
    assert NodeOk(cfg, net, i);
    DecisionsStayBacked(cfg, net, net', i);
    assert IsWanted(x, a.resp) ==> i != 0;
    if Adopts(cfg, x, a.resp) {
      LaterRound(x.m, y.m, x.heardPrepares, x.m.prepares, x.m.prepareSet);
      LaterRound(x.m, y.m, x.heardCommits, x.m.commits, x.m.commitSet);
    }
    hide Backed, VotesKept;
    assert OwnVotesOk(net', i);
    assert NodeOk(cfg, net', i);
  }

  /** The commit votes a node has counted are a quorum of votes that were sent. */
  lemma CountedAreSent(cfg: Config, net: Net, i: nat)
    requires i < |net.nodes| && NodeOk(cfg, net, i) && net.nodes[i].m.proposal.Some?
    ensures |net.nodes[i].m.commitSet| <= |Senders(net.commits, net.nodes[i].m.cur, net.nodes[i].m.proposal.value.digest)|
  {
    var m := net.nodes[i].m;
    var all := Senders(net.commits, m.cur, m.proposal.value.digest);
    forall x | x in m.commitSet ensures x in all {
      assert Vote(m.cur, m.proposal.value.digest, x) in net.commits;
    }
    SubsetSize(m.commitSet, all);
  }

  lemma StepOk(cfg: Config, net: Net, i: nat)
    requires Inv(cfg, net) && Enabled(cfg, net, Step(i))
    ensures Inv(cfg, Next(cfg, net, Step(i)))
  {
    var net' := Next(cfg, net, Step(i));
    assert NodeOk(cfg, net, i);
    OthersGrow(cfg, net, net', i);
    if net'.nodes[i].m.stage == net.nodes[i].m.stage {
      assert net' == net;
    } else {
      match net.nodes[i].m.stage
      case StagePreprepare => VoteStepOk(cfg, net, i);
      case StagePrepare => VoteStepOk(cfg, net, i);
      case StageCommit => DecideOk(cfg, net, i);
    }
    hide NodeOk;
  }

  /** Sending a prepare or a commit vote: the first of its kind in this round. */
  lemma VoteStepOk(cfg: Config, net: Net, i: nat)
    requires Inv(cfg, net) && Enabled(cfg, net, Step(i))
    requires net.nodes[i].m.stage != StageCommit && Stepped(net.nodes[i].m).value.stage != net.nodes[i].m.stage
    ensures NodeOk(cfg, Next(cfg, net, Step(i)), i)
    ensures var net' := Next(cfg, net, Step(i));
            && (forall v :: v in net'.commits ==> 0 <= v.node < cfg.n)
            && (forall v, w :: v in net'.commits && w in net'.commits && v.node == w.node && v.node !in cfg.faulty && v.at == w.at ==> v == w)
  {
    var net' := Next(cfg, net, Step(i));
    var a, b := net.nodes[i], net'.nodes[i];
    assert NodeOk(cfg, net, i);
    SameRound(a.m, b.m, a.heardPrepares, a.m.prepares, a.m.prepareSet);
    SameRound(a.m, b.m, a.heardCommits, a.m.commits, a.m.commitSet);
    DecisionsStayBacked(cfg, net, net', i);
    hide Backed, VotesKept;
    assert RoundOk(cfg, net', i);
    assert OwnVotesOk(net', i);
    assert NodeOk(cfg, net', i);
  }

  /** Deciding: a quorum of commits has been counted, and the next round starts with clean sets. */
  lemma DecideOk(cfg: Config, net: Net, i: nat)
    requires Inv(cfg, net) && Enabled(cfg, net, Step(i))
    requires net.nodes[i].m.stage == StageCommit && Stepped(net.nodes[i].m).value.stage != net.nodes[i].m.stage
    ensures NodeOk(cfg, Next(cfg, net, Step(i)), i)
  {
    var net' := Next(cfg, net, Step(i));
    var a, b := net.nodes[i], net'.nodes[i];
    assert NodeOk(cfg, net, i);
    CountedAreSent(cfg, net, i);
    LaterRound(a.m, b.m, a.heardPrepares, a.m.prepares, a.m.prepareSet);
    LaterRound(a.m, b.m, a.heardCommits, a.m.commits, a.m.commitSet);
    DecisionsStayBacked(cfg, net, net', i);
    assert Backed(cfg, net', a.m.proposal.value);
    hide Backed, VotesKept;
    assert RoundOk(cfg, net', i);
    assert OwnVotesOk(net', i);
    assert NodeOk(cfg, net', i);
  }

  /** Votes for a later round are still in the pool when it starts. */
  lemma LaterRound(m: Meta, m': Meta, heard: set<Vote>, pool: set<Vote>, counted: set<NodeId>)
    requires VotesKept(m, heard, pool, counted)
    requires Below(m.cur, m'.cur) && m'.proposal.None?
    ensures VotesKept(m', heard, pool, {})
  {
    forall v | v in heard && AtMost(m'.cur, v.at) ensures v in pool {
      CompareIsTotalOrder(m.cur, m'.cur, v.at);
      assert Below(m.cur, v.at);
    }
  }

  lemma NextKeepsInv(cfg: Config, net: Net, e: Event)
    requires Inv(cfg, net) && Enabled(cfg, net, e) && Forward(cfg)(net, e)
    ensures Inv(cfg, Next(cfg, net, e))
  {
    hide Inv, Next;
    match e
    case Curate(i, choice) => CurateOk(cfg, net, i, choice);
    case Step(i) => StepOk(cfg, net, i);
    case Propose(digest, content) => ProposeOk(cfg, net, digest, content);
    case ForgePreprepare(_) => ForgeOk(cfg, net, e);
    case ForgePrepare(_) => ForgeOk(cfg, net, e);
    case ForgeCommit(_) => ForgeOk(cfg, net, e);
    case ForgeAnswer(_) => ForgeOk(cfg, net, e);
    case HearPreprepare(_, _, _) => HearPreprepareOk(cfg, net, e);
    case HearPrepare(_, _) => HearPrepareOk(cfg, net, e);
    case HearCommit(_, _) => HearCommitOk(cfg, net, e);
    case Ask(i) => AskOk(cfg, net, i);
    case Reply(r) => ReplyOk(cfg, net, r);
    case Receive(a) => ReceiveOk(cfg, net, a);
  }

  lemma {:induction false} RunKeepsInv(cfg: Config, es: seq<Event>)
    requires IsConfig(cfg) && Run(cfg, es).Some? && Throughout(cfg, es, Forward(cfg))
    ensures Inv(cfg, Run(cfg, es).value)
  {
    if es == [] {
      StartHolds(cfg);
    } else {
      RunKeepsInv(cfg, es[..|es| - 1]);
      NextKeepsInv(cfg, Run(cfg, es[..|es| - 1]).value, es[|es| - 1]);
    }
  }

  // ---------------------------------------------------------------------- agreement

  lemma {:induction false} RangeSize(s: set<NodeId>, n: nat)
    requires forall x :: x in s ==> 0 <= x < n
    ensures |s| <= n
  {
    if n > 0 {
      RangeSize(s - {n - 1}, n - 1);
    } else {
      assert forall x :: x !in s;
    }
  }

  /** Two quorums of nodes that together outnumber all nodes and the faulty ones share a correct node. */
  lemma QuorumsMeet(n: nat, faulty: set<NodeId>, a: set<NodeId>, b: set<NodeId>) returns (x: NodeId)
    requires forall y :: y in a + b ==> 0 <= y < n
    requires |a| + |b| > n + |faulty|
    ensures x in a && x in b && x !in faulty
  {
    RangeSize(a + b, n);
    assert |a + b| == |a| + |b| - |a * b|;
    if a * b <= faulty {
      SubsetSize(a * b, faulty);
      assert false;
    }
    x :| x in a * b && x !in faulty;
  }

  /** What agreement rests on: quorums that meet outside the faulty nodes, or a correct leader. */
  predicate Safe(cfg: Config) {
    2 * (2 * FaultBound(cfg.n) + 1) > cfg.n + |cfg.faulty| || 0 !in cfg.faulty
  }

  /** No two correct nodes decide different digests in the same round, as long as rounds are only left for later ones. */
  lemma Agreement(cfg: Config, es: seq<Event>, net: Net, i: nat, j: nat, p: Preprepare, q: Preprepare)
    requires IsConfig(cfg) && Run(cfg, es) == Some(net) && Throughout(cfg, es, Forward(cfg)) && Safe(cfg)
    requires Correct(cfg, net, i) && Correct(cfg, net, j)
    requires p in net.nodes[i].decided && q in net.nodes[j].decided && p.at == q.at
    ensures p.digest == q.digest
  {
    RunKeepsInv(cfg, es);
    assert NodeOk(cfg, net, i) && NodeOk(cfg, net, j);
    assert Backed(cfg, net, p) && Backed(cfg, net, q);
    if 0 in cfg.faulty {
      var x := QuorumsMeet(cfg.n, cfg.faulty, Senders(net.commits, p.at, p.digest), Senders(net.commits, p.at, q.digest));
      assert Vote(p.at, p.digest, x) in net.commits && Vote(p.at, q.digest, x) in net.commits;
    }
  }

  /** Under a correct leader the decisions of a round are the same proposal, block and all, whatever the quorums. */
  lemma SameProposal(cfg: Config, es: seq<Event>, net: Net, i: nat, j: nat, p: Preprepare, q: Preprepare)
    requires IsConfig(cfg) && Run(cfg, es) == Some(net) && Throughout(cfg, es, Forward(cfg)) && 0 !in cfg.faulty
    requires Correct(cfg, net, i) && Correct(cfg, net, j)
    requires p in net.nodes[i].decided && q in net.nodes[j].decided && p.at == q.at
    ensures p == q
  {
    RunKeepsInv(cfg, es);
    assert NodeOk(cfg, net, i) && NodeOk(cfg, net, j);
    assert Backed(cfg, net, p) && Backed(cfg, net, q);
  }

  /** Nobody receives an answer, so that nobody adopts a round. */
  ghost predicate NoCatchup(es: seq<Event>) { forall e :: e in es ==> !e.Receive? }

  function Following(at: ViewSeq): ViewSeq { at.(seq_ := at.seq_ + 1) }

  /** The node decides nothing and leaves its round only for a later one in a catch-up, or it decides the proposal of its round. */
  ghost predicate Proceeds(e: Event, a: Node, b: Node) {
    || (b.decided == a.decided && (b.m.cur == a.m.cur || (e.Receive? && Below(a.m.cur, b.m.cur))))
    || (a.m.proposal.Some? && a.m.proposal.value.at == a.m.cur
        && b.decided == a.decided + [a.m.proposal.value] && b.m.cur == Following(a.m.cur))
  }

  /** What matters about a node that is in a round. */
  ghost predicate InItsRound(m: Meta) { m.proposal.Some? ==> m.proposal.value.at == m.cur }

  lemma ProceedsDecision(cfg: Config, net: Net, j: nat, i: nat)
    requires Enabled(cfg, net, Step(j)) && i < |net.nodes| && (forall k :: 0 <= k < |net.nodes| && k == j ==> InItsRound(net.nodes[k].m))
    requires net.nodes[j].m.stage != StagePreprepare ==> net.nodes[j].m.proposal.Some?
    ensures Proceeds(Step(j), net.nodes[i], Next(cfg, net, Step(j)).nodes[i])
  {
    hide Extended, Below;
  }

  lemma ProceedsAnswer(cfg: Config, net: Net, a: Answer, i: nat)
    requires Enabled(cfg, net, Receive(a)) && Forward(cfg)(net, Receive(a)) && i < |net.nodes|
    ensures Proceeds(Receive(a), net.nodes[i], Next(cfg, net, Receive(a)).nodes[i])
  {
    hide ExtendedAll, Below;
  }

  lemma ProceedsOther(cfg: Config, net: Net, e: Event, i: nat)
    requires Enabled(cfg, net, e) && !IsQuiet(e) && !e.Step? && !e.Receive? && i < |net.nodes|
    ensures Proceeds(e, net.nodes[i], Next(cfg, net, e).nodes[i])
  {
    hide Proposed, Replied, CatchupDue, Replica.Height;
  }

  lemma ProceedsStep(cfg: Config, net: Net, e: Event, i: nat)
    requires Inv(cfg, net) && Enabled(cfg, net, e) && Forward(cfg)(net, e) && i < cfg.n && i !in cfg.faulty
    ensures |Next(cfg, net, e).nodes| == cfg.n && Proceeds(e, net.nodes[i], Next(cfg, net, e).nodes[i])
  {
    NextKeepsInv(cfg, net, e);
    if e.Step? { assert NodeOk(cfg, net, e.i) && RoundOk(cfg, net, e.i); }
    hide Next, NodeOk, LeaderOk;
    if IsQuiet(e) {
      QuietRecord(cfg, net, e, i);
    } else if e.Step? {
      ProceedsDecision(cfg, net, e.i, i);
    } else if e.Receive? {
      ProceedsAnswer(cfg, net, e.a, i);
    } else {
      ProceedsOther(cfg, net, e, i);
    }
  }

  /** Without catching up the rounds of a correct node are decided one after the other. */
  ghost predicate InOrder(cfg: Config, net: Net) {
    forall i :: 0 <= i < |net.nodes| && i !in cfg.faulty ==>
      net.nodes[i].m.cur == Round(|net.nodes[i].decided|) &&
      forall k :: 0 <= k < |net.nodes[i].decided| ==> net.nodes[i].decided[k].at == Round(k)
  }

  lemma {:induction false} NoCatchupInOrder(cfg: Config, es: seq<Event>)
    requires IsConfig(cfg) && Run(cfg, es).Some? && NoCatchup(es)
    ensures Throughout(cfg, es, Forward(cfg)) && InOrder(cfg, Run(cfg, es).value)
  {
    if es != [] {
      var most, e := es[..|es| - 1], es[|es| - 1];
      assert e in es && forall x :: x in most ==> x in es;
      NoCatchupInOrder(cfg, most);
      RunKeepsInv(cfg, most);
      StaysInOrder(cfg, Run(cfg, most).value, e);
    }
  }

  lemma StaysInOrder(cfg: Config, net: Net, e: Event)
    requires Inv(cfg, net) && InOrder(cfg, net) && Enabled(cfg, net, e) && !e.Receive?
    ensures InOrder(cfg, Next(cfg, net, e))
  {
    var net' := Next(cfg, net, e);
    forall i | 0 <= i < |net'.nodes| && i !in cfg.faulty
      ensures net'.nodes[i].m.cur == Round(|net'.nodes[i].decided|) &&
              forall k :: 0 <= k < |net'.nodes[i].decided| ==> net'.nodes[i].decided[k].at == Round(k)
    {
      ProceedsStep(cfg, net, e, i);
    }
  }

  ghost function Digests(decided: seq<Preprepare>): seq<Digest> {
    seq(|decided|, k requires 0 <= k < |decided| => decided[k].digest)
  }

  /** With 3f + 1 nodes, at most f of them faulty, one correct node's digests are a prefix of the other's. */
  lemma DecisionsArePrefixes(cfg: Config, es: seq<Event>, net: Net, i: nat, j: nat)
    requires IsConfig(cfg) && Run(cfg, es) == Some(net) && NoCatchup(es)
    requires cfg.n == 3 * FaultBound(cfg.n) + 1 && |cfg.faulty| <= FaultBound(cfg.n)
    requires Correct(cfg, net, i) && Correct(cfg, net, j)
    ensures var a, b := Digests(net.nodes[i].decided), Digests(net.nodes[j].decided); a <= b || b <= a
  {
    NoCatchupInOrder(cfg, es);
    forall k | 0 <= k < |net.nodes[i].decided| && k < |net.nodes[j].decided|
      ensures net.nodes[i].decided[k].digest == net.nodes[j].decided[k].digest
    {
      Agreement(cfg, es, net, i, j, net.nodes[i].decided[k], net.nodes[j].decided[k]);
    }
  }

  // ------------------------------------------------------------------- early messages

  /** The quorum sets are exactly the senders of all matching votes the node has ever heard. */
  ghost predicate NothingLost(a: Node) {
    a.m.proposal.Some? ==>
      && a.m.prepareSet == Senders(a.heardPrepares, a.m.cur, a.m.proposal.value.digest)
      && a.m.commitSet == Senders(a.heardCommits, a.m.cur, a.m.proposal.value.digest)
  }

  /**
   * No early message is lost: once a node has curated with a proposal at hand, its quorum sets are exactly the
   * senders of all matching votes it has ever heard, whatever round it was in when they came and however often it
   * has caught up, as long as the rounds it adopted were later than the ones it left.
   */
  lemma NothingHeardIsLost(cfg: Config, es: seq<Event>, net: Net, i: nat)
    requires IsConfig(cfg) && es != [] && Run(cfg, es) == Some(net) && Throughout(cfg, es, Forward(cfg))
    requires es[|es| - 1].Curate? && es[|es| - 1].i == i && i < |net.nodes|
    ensures NothingLost(net.nodes[i])
  {
    RunKeepsInv(cfg, es);
    assert NodeOk(cfg, net, i);
    var m := net.nodes[i].m;
    if m.proposal.Some? {
      assert (forall v :: v in m.prepares ==> Below(m.cur, v.at)) && (forall v :: v in m.commits ==> Below(m.cur, v.at));
      CountedAll(m, net.nodes[i].heardPrepares, m.prepares, m.prepareSet);
      CountedAll(m, net.nodes[i].heardCommits, m.commits, m.commitSet);
    }
  }

  lemma CountedAll(m: Meta, heard: set<Vote>, pool: set<Vote>, counted: set<NodeId>)
    requires VotesKept(m, heard, pool, counted) && m.proposal.Some? && (forall v :: v in pool ==> Below(m.cur, v.at))
    ensures counted == Senders(heard, m.cur, m.proposal.value.digest)
  {
    var digest := m.proposal.value.digest;
    forall x ensures x in counted <==> x in Senders(heard, m.cur, digest) {
      if x in Senders(heard, m.cur, digest) {
        var v :| v in heard && v.at == m.cur && v.digest == digest && v.node == x;
        assert v !in pool;
      }
    }
  }
}
