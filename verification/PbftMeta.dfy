/** The per-node round machine of PBFT: stages, quorum sets and the catch-up trigger. */
module PbftMeta {
  import opened Prelude
  import opened ViewSeqs
  import opened PriorityQueues
  import opened MsgPools
  import opened Chain

  const INITIAL_LEADER: NodeId := 0
  const CATCH_UP_THRESHOLD := 5

  datatype Stage = StagePreprepare | StagePrepare | StageCommit | StageNewView | StageViewChange

  /** The value of consensusMeta; the message pool counts as the set of messages it holds. */
  datatype Meta = Meta(
    f: int,
    leader: NodeId,
    proposed: bool,
    cur: ViewSeq,
    stage: Stage,
    proposal: Option<Preprepare>,
    last: Option<Preprepare>,
    prepareSet: set<NodeId>,
    commitSet: set<NodeId>,
    preprepares: set<Preprepare>,
    prepares: set<Vote>,
    commits: set<Vote>,
    latest: ViewSeq,
    catchupStarted: bool)

  /** The answer to a catch-up request: blocks, and the round the leader was in. */
  datatype CatchupResp = CatchupResp(blocks: seq<Block>, next: ViewSeq, node: NodeId)

  function FaultBound(nodeNum: int): int { (nodeNum - 1) / 3 }

  function InitialMeta(nodeNum: int): Meta {
    Meta(FaultBound(nodeNum), INITIAL_LEADER, false, ViewSeq(0, 0), StagePreprepare, None, None, {}, {}, {}, {}, {}, ViewSeq(0, 0), false)
  }

  // --------------------------------------------------------------------- curating

  predicate IsProposalFor(m: Meta, pp: Preprepare) { pp.at == m.cur && pp.node == m.leader }

  function LaterPreprepares(s: set<Preprepare>, cur: ViewSeq): set<Preprepare> { set x | x in s && Below(cur, x.at) }
  function LaterVotes(s: set<Vote>, cur: ViewSeq): set<Vote> { set x | x in s && Below(cur, x.at) }

  /** Who voted for this digest in this round. */
  function Senders(votes: set<Vote>, at: ViewSeq, digest: Digest): set<NodeId> {
    set v | v in votes && v.at == at && v.digest == digest :: v.node
  }

  /** The proposal that reading the pool yields: some valid one, and none only if there is none. */
  ghost predicate IsChoice(m: Meta, choice: Option<Preprepare>) {
    match choice
    case None => forall pp :: pp in m.preprepares ==> !IsProposalFor(m, pp)
    case Some(pp) => pp in m.preprepares && IsProposalFor(m, pp)
  }

  function WithProposal(m: Meta, choice: Option<Preprepare>): Meta {
    if m.proposal.Some? then m else m.(proposal := choice, preprepares := LaterPreprepares(m.preprepares, m.cur))
  }

  function WithVotes(m: Meta): Meta {
    if m.proposal.None? then m else
    var digest := m.proposal.value.digest;
    m.(prepareSet := m.prepareSet + Senders(m.prepares, m.cur, digest), prepares := LaterVotes(m.prepares, m.cur),
       commitSet := m.commitSet + Senders(m.commits, m.cur, digest), commits := LaterVotes(m.commits, m.cur))
  }

  function Curated(m: Meta, choice: Option<Preprepare>): Meta { WithVotes(WithProposal(m, choice)) }

  // ---------------------------------------------------------------------- stepping

  function Quorum(m: Meta): int { 2 * m.f + 1 }

  function NextRound(m: Meta): Meta {
    m.(stage := StagePreprepare, last := m.proposal, proposal := None, prepareSet := {}, commitSet := {}, proposed := false,
       cur := m.cur.(seq_ := m.cur.seq_ + 1))
  }

  /** One stage transition, if the current stage has what it waits for; None when the stage is not one of the round. */
  function Stepped(m: Meta): Option<Meta> {
    match m.stage
    case StagePreprepare => Some(if m.proposal.None? then m else m.(stage := StagePrepare))
    case StagePrepare => Some(if |m.prepareSet| < Quorum(m) then m else m.(stage := StageCommit))
    case StageCommit => Some(if |m.commitSet| < Quorum(m) then m else NextRound(m))
    case StageNewView => None
    case StageViewChange => None
  }

  // ---------------------------------------------------------------------- hearing

  /** Messages of past rounds are ignored, and so is a proposal that fails validation. */
  function HeardPreprepare(m: Meta, pp: Preprepare, valid: bool): Meta {
    if m.cur.Compare(pp.at) > 0 || !valid then m else
    m.(preprepares := m.preprepares + {pp}, latest := if m.latest.Compare(pp.at) == -1 then pp.at else m.latest)
  }

  function HeardPrepare(m: Meta, v: Vote): Meta {
    if m.cur.Compare(v.at) > 0 then m else m.(prepares := m.prepares + {v})
  }

  function HeardCommit(m: Meta, v: Vote): Meta {
    if m.cur.Compare(v.at) > 0 then m else m.(commits := m.commits + {v})
  }

  // ---------------------------------------------------------------------- catch-up

  predicate CatchupDue(m: Meta) {
    !m.catchupStarted && m.latest.view == m.cur.view && m.latest.seq_ >= m.cur.seq_ + CATCH_UP_THRESHOLD
  }

  function CaughtUp(m: Meta, next: ViewSeq): Meta {
    m.(catchupStarted := false, cur := next, stage := StagePreprepare, last := None, proposal := None,
       prepareSet := {}, commitSet := {}, proposed := false)
  }

  // --------------------------------------------------------------------- the object

  ghost function SetOf<T>(items: seq<T>): set<T> { set x | x in items }

  class ConsensusMeta {
    var f: int
    var leader: NodeId
    const msgPool: MsgPool
    var proposed: bool
    var curViewSeq: ViewSeq
    var stage: Stage
    var curPreprepare: Option<Preprepare>
    var lastProposal: Option<Preprepare>
    var prepareSet: set<NodeId>
    var commitSet: set<NodeId>
    var latestViewSeq: ViewSeq
    var catchupStarted: bool

    constructor (nodeNum: int)
      requires nodeNum > 0
      ensures Valid() && View() == InitialMeta(nodeNum)
      ensures fresh(msgPool) && fresh(msgPool.preprepares) && fresh(msgPool.prepares) && fresh(msgPool.commits)
    {
      f, leader := (nodeNum - 1) / 3, INITIAL_LEADER;
      msgPool := new MsgPool();
      proposed, curViewSeq, stage, curPreprepare, lastProposal := false, ViewSeq(0, 0), StagePreprepare, None, None;
      prepareSet, commitSet, latestViewSeq, catchupStarted := {}, {}, ViewSeq(0, 0), false;
    }

    ghost predicate Valid()
      reads this, msgPool, msgPool.preprepares, msgPool.prepares, msgPool.commits
    {
      msgPool.Valid()
    }

    ghost function View(): Meta
      reads this, msgPool, msgPool.preprepares, msgPool.prepares, msgPool.commits
    {
      Meta(f, leader, proposed, curViewSeq, stage, curPreprepare, lastProposal, prepareSet, commitSet,
           SetOf(msgPool.preprepares.items), SetOf(msgPool.prepares.items), SetOf(msgPool.commits.items),
           latestViewSeq, catchupStarted)
    }

    /** The first valid proposal of those read; the others that were read are gone. */
    method PickProposal(list: seq<Preprepare>) returns (choice: Option<Preprepare>)
      ensures choice.None? ==> forall pp :: pp in list ==> !(pp.at == curViewSeq && pp.node == leader)
      ensures choice.Some? ==> choice.value in list && choice.value.at == curViewSeq && choice.value.node == leader
    {
      for i := 0 to |list|
        invariant forall j :: 0 <= j < i ==> !(list[j].at == curViewSeq && list[j].node == leader)
      {
        if curViewSeq.Compare(list[i].at) != 0 || list[i].node != leader { continue; }
        return Some(list[i]);
      }
      return None;
    }

    method CountVotes(list: seq<Vote>, digest: Digest, counted: set<NodeId>) returns (r: set<NodeId>)
      ensures r == counted + Senders(SetOf(list), curViewSeq, digest)
    {
      r := counted;
      for i := 0 to |list|
        invariant r == counted + Senders(SetOf(list[..i]), curViewSeq, digest)
      {
        SendersSnoc(list[..i], list[i], curViewSeq, digest);
        assert list[..i + 1] == list[..i] + [list[i]];
        if curViewSeq.Compare(list[i].at) != 0 || list[i].digest != digest { continue; }
        r := r + {list[i].node};
      }
      assert list[..|list|] == list;
    }

    /** Fetch the proposal of the round if there is none yet, then count the votes for it. */
    method CurateMsg() returns (ghost choice: Option<Preprepare>)
      requires Valid()
      modifies this`curPreprepare, this`prepareSet, this`commitSet, msgPool.preprepares, msgPool.prepares, msgPool.commits
      ensures Valid() && View() == Curated(old(View()), choice)
      ensures old(curPreprepare).None? ==> IsChoice(old(View()), choice)
    {
      choice := CurateProposal();
      if curPreprepare.None? { return; }
      CurateVotes();
    }

    method CurateProposal() returns (ghost choice: Option<Preprepare>)
      requires Valid()
      modifies this`curPreprepare, msgPool.preprepares
      ensures Valid() && View() == WithProposal(old(View()), choice)
      ensures old(curPreprepare).None? ==> IsChoice(old(View()), choice)
    {
      choice := None;
      if curPreprepare.Some? { return; }
      ghost var all := msgPool.preprepares.items;
      var list := msgPool.ReadPreprepareMsg(curViewSeq);
      curPreprepare := PickProposal(list);
      choice := curPreprepare;
      ReadMembers(multiset(all), list, multiset(msgPool.preprepares.items), PreprepareKey(), curViewSeq);
      LaterIsRest(all, msgPool.preprepares.items, PreprepareKey(), curViewSeq);
    }

    method CurateVotes()
      requires Valid() && curPreprepare.Some?
      modifies this`prepareSet, this`commitSet, msgPool.prepares, msgPool.commits
      ensures Valid() && View() == WithVotes(old(View()))
    {
      var digest := curPreprepare.value.digest;
      ghost var prepares, commits := msgPool.prepares.items, msgPool.commits.items;
      var pList := msgPool.ReadPrepareMsg(curViewSeq);
      prepareSet := CountVotes(pList, digest, prepareSet);
      ReadVotes(prepares, pList, msgPool.prepares.items, curViewSeq, digest);
      var cList := msgPool.ReadCommitMsg(curViewSeq);
      commitSet := CountVotes(cList, digest, commitSet);
      ReadVotes(commits, cList, msgPool.commits.items, curViewSeq, digest);
    }

    method Step2Next() returns (r: Option<(Stage, Stage)>)
      modifies this`stage, this`lastProposal, this`curPreprepare, this`prepareSet, this`commitSet, this`proposed, this`curViewSeq
      requires stage == StageCommit ==> curPreprepare.Some?
      ensures r.None? <==> Stepped(old(View())).None?
      ensures View() == if r.None? then old(View()) else Stepped(old(View())).value
      ensures r.Some? ==> r.value == (old(stage), stage)
    {
      match stage {
        case StagePreprepare =>
          if curPreprepare.None? { return Some((StagePreprepare, StagePreprepare)); }
          stage := StagePrepare;
          return Some((StagePreprepare, StagePrepare));
        case StagePrepare =>
          if |prepareSet| < 2 * f + 1 { return Some((StagePrepare, StagePrepare)); }
          stage := StageCommit;
          return Some((StagePrepare, StageCommit));
        case StageCommit =>
          if |commitSet| < 2 * f + 1 { return Some((StageCommit, StageCommit)); }
          stage := StagePreprepare;
          lastProposal := curPreprepare;
          curPreprepare := None;
          prepareSet, commitSet := {}, {};
          proposed := false;
          curViewSeq := curViewSeq.(seq_ := curViewSeq.seq_ + 1);
          return Some((StageCommit, StagePreprepare));
        case _ => return None;
      }
    }

    method UpdateLatestViewSeq(at: ViewSeq)
      modifies this`latestViewSeq
      ensures latestViewSeq == if old(latestViewSeq).Compare(at) == -1 then at else old(latestViewSeq)
    {
      if latestViewSeq.Compare(at) == -1 { latestViewSeq := at; }
    }

    method CatchupReady() returns (ready: bool)
      ensures ready <==> CatchupDue(View())
    {
      if catchupStarted { return false; }
      return latestViewSeq.view == curViewSeq.view && latestViewSeq.seq_ >= curViewSeq.seq_ + CATCH_UP_THRESHOLD;
    }

    method CatchupOverAndReset(next: ViewSeq)
      modifies this
      ensures View() == CaughtUp(old(View()), next)
    {
      catchupStarted, curViewSeq := false, next;
      stage, lastProposal, curPreprepare := StagePreprepare, None, None;
      prepareSet, commitSet, proposed := {}, {}, false;
    }
  }

  lemma SendersSnoc(list: seq<Vote>, v: Vote, at: ViewSeq, digest: Digest)
    ensures Senders(SetOf(list + [v]), at, digest) ==
            if v.at == at && v.digest == digest then Senders(SetOf(list), at, digest) + {v.node} else Senders(SetOf(list), at, digest)
  {
    var all := Senders(SetOf(list + [v]), at, digest);
    forall x | x in all ensures x in Senders(SetOf(list), at, digest) || (x == v.node && v.at == at && v.digest == digest) {
      var w :| w in SetOf(list + [v]) && w.at == at && w.digest == digest && w.node == x;
      assert w in list || w == v;
    }
    forall x | x in Senders(SetOf(list), at, digest) ensures x in all {
      var w :| w in SetOf(list) && w.at == at && w.digest == digest && w.node == x;
      assert w in list + [v];
    }
    if v.at == at && v.digest == digest { assert v in list + [v]; }
  }

  lemma LaterIsRest(all: seq<Preprepare>, rest: seq<Preprepare>, key: Preprepare -> ViewSeq, end: ViewSeq)
    requires forall x :: x in multiset(rest) <==> x in multiset(all) && Below(end, key(x))
    requires key == PreprepareKey()
    ensures SetOf(rest) == LaterPreprepares(SetOf(all), end)
  {
    forall x ensures x in rest <==> x in all && Below(end, x.at) {
      assert x in multiset(rest) <==> x in rest;
      assert x in multiset(all) <==> x in all;
    }
  }

  /** Reading up to the present round and counting gives the senders of all votes in the pool, and keeps the later ones. */
  lemma ReadVotes(all: seq<Vote>, read: seq<Vote>, rest: seq<Vote>, end: ViewSeq, digest: Digest)
    requires IsRead(multiset(all), read, multiset(rest), VoteKey(), end)
    ensures Senders(SetOf(read), end, digest) == Senders(SetOf(all), end, digest)
    ensures SetOf(rest) == LaterVotes(SetOf(all), end)
  {
    ReadMembers(multiset(all), read, multiset(rest), VoteKey(), end);
    forall x ensures x in rest <==> x in all && Below(end, x.at) {
      assert x in multiset(rest) <==> x in rest;
      assert x in multiset(all) <==> x in all;
    }
    forall v ensures v in read <==> v in all && AtMost(v.at, end) {
      assert v in multiset(all) <==> v in all;
    }
  }
}
