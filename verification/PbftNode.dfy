/** A PBFT node as an object: message handlers, the stage loop, proposing, and catching up. */
module PbftNode {
  import opened Prelude
  import opened Accounts
  import opened ViewSeqs
  import opened PriorityQueues
  import opened MsgPools
  import opened PbftMeta
  import opened Chain
  import S = PbftSystem

  datatype Sent =
    | SentPreprepare(pp: Preprepare)
    | SentPrepare(v: Vote)
    | SentCommit(v: Vote)

  /** What a tick does to the round machine: as many stages as it has votes for, but at most to the end of the round. */
  function SteppedThrough(m: Meta): Meta
    requires m.stage == StagePreprepare || m.stage == StagePrepare || m.stage == StageCommit
  {
    var a := if m.stage == StagePreprepare then Stepped(m).value else m;
    var b := if a.stage == StagePrepare then Stepped(a).value else a;
    if b.stage == StageCommit then Stepped(b).value else b
  }

  /** The votes of a tick: one for every stage that is entered on the way. */
  function VotesOf(m: Meta, self: NodeId): seq<Sent>
    requires m.stage == StagePreprepare || m.stage == StagePrepare || m.stage == StageCommit
  {
    if m.proposal.None? then [] else
    var pp := m.proposal.value;
    var vote := Vote(pp.at, pp.digest, self);
    var prepares := m.stage == StagePreprepare;
    var commits := m.stage != StageCommit && |m.prepareSet| >= Quorum(m);
    (if prepares then [SentPrepare(vote)] else []) + (if commits then [SentCommit(vote)] else [])
  }

  /** The tick ends the round. */
  predicate Decides(m: Meta)
    requires m.stage == StagePreprepare || m.stage == StagePrepare || m.stage == StageCommit
  {
    m.proposal.Some? && (m.stage == StageCommit || |m.prepareSet| >= Quorum(m)) && |m.commitSet| >= Quorum(m)
  }

  predicate InRound(m: Meta) {
    (m.stage == StagePreprepare || m.stage == StagePrepare || m.stage == StageCommit) && (m.stage != StagePreprepare ==> m.proposal.Some?)
  }

  /** One turn of the stage loop: stop, go on with one vote less to send, or end the round. */
  lemma OneTurn(m: Meta, self: NodeId)
    requires InRound(m)
    ensures var m' := Stepped(m).value;
            && (m'.stage == m.stage ==> SteppedThrough(m) == m == m' && VotesOf(m, self) == [] && !Decides(m))
            && (m'.stage == StagePreprepare != m.stage ==> SteppedThrough(m) == m' && VotesOf(m, self) == [] && Decides(m))
            && (m'.stage != m.stage && m'.stage != StagePreprepare ==>
                  && InRound(m') && m'.proposal == m.proposal && m'.cur == m.cur
                  && SteppedThrough(m') == SteppedThrough(m) && Decides(m') == Decides(m)
                  && var v := Vote(m.proposal.value.at, m.proposal.value.digest, self);
                     VotesOf(m, self) == [if m'.stage == StagePrepare then SentPrepare(v) else SentCommit(v)] + VotesOf(m', self))
  {
  }

  function TurnsLeft(s: Stage): nat { if s == StagePreprepare then 2 else if s == StagePrepare then 1 else 0 }

  class Node {
    const bc: Chain
    const pbftMeta: ConsensusMeta
    const nodeID: NodeId

    constructor (bc: Chain, nodeNum: int, nodeID: NodeId)
      requires bc.Valid() && bc.curHeader.number == 1 && nodeNum > 0
      ensures Valid() && this.bc == bc && InStep()
    {
      this.bc, this.nodeID := bc, nodeID;
      pbftMeta := new ConsensusMeta(nodeNum);
    }

    /** The stage is one of the round, and past the first stage there is a proposal, always for this round. */
    ghost predicate RoundValid()
      reads this, pbftMeta, pbftMeta.msgPool, pbftMeta.msgPool.preprepares, pbftMeta.msgPool.prepares, pbftMeta.msgPool.commits
    {
      && pbftMeta.Valid()
      && (pbftMeta.stage == StagePreprepare || pbftMeta.stage == StagePrepare || pbftMeta.stage == StageCommit)
      && (pbftMeta.stage != StagePreprepare ==> pbftMeta.curPreprepare.Some?)
      && (pbftMeta.curPreprepare.Some? ==> pbftMeta.curPreprepare.value.at == pbftMeta.curViewSeq)
    }

    /** The header is that of the last block. */
    ghost predicate Valid()
      reads this, bc, pbftMeta, pbftMeta.msgPool, pbftMeta.msgPool.preprepares, pbftMeta.msgPool.prepares, pbftMeta.msgPool.commits
    {
      RoundValid() && bc.shardNum > 0 && bc.history != [] && bc.curHeader == bc.history[|bc.history| - 1].header
    }

    /** The node's copy of the chain. */
    ghost function Copy(): Replica
      reads bc
    {
      Replica(bc.history, bc.state)
    }

    /** This object is that node of the system. */
    ghost predicate Holds(a: S.Node)
      reads this, bc, pbftMeta, pbftMeta.msgPool, pbftMeta.msgPool.preprepares, pbftMeta.msgPool.prepares, pbftMeta.msgPool.commits
    {
      a.m == pbftMeta.View() && a.chain == Copy()
    }

    /** The chain height is the sequence number plus one: the genesis block has height 1, the first round number 0. */
    ghost predicate InStep()
      reads this, bc, pbftMeta
    {
      bc.curHeader.number == pbftMeta.curViewSeq.seq_ + 1
    }

    // ------------------------------------------------------------------------ handlers

    method HandlePreprepare(pp: Preprepare, validProposal: bool)
      requires Valid()
      modifies pbftMeta, pbftMeta.msgPool.preprepares
      ensures Valid() && pbftMeta.View() == HeardPreprepare(old(pbftMeta.View()), pp, validProposal)
    {
      if pbftMeta.curViewSeq.Compare(pp.at) > 0 { return; }
      if !validProposal { return; }
      ghost var before := pbftMeta.msgPool.preprepares.items;
      pbftMeta.msgPool.PushPreprepareMsg(pp);
      SetOfPushed(before, pbftMeta.msgPool.preprepares.items, pp);
      pbftMeta.UpdateLatestViewSeq(pp.at);
    }

    method HandlePrepare(v: Vote)
      requires Valid()
      modifies pbftMeta.msgPool.prepares
      ensures Valid() && pbftMeta.View() == HeardPrepare(old(pbftMeta.View()), v)
    {
      if pbftMeta.curViewSeq.Compare(v.at) > 0 { return; }
      ghost var before := pbftMeta.msgPool.prepares.items;
      pbftMeta.msgPool.PushPrepareMsg(v);
      SetOfPushed(before, pbftMeta.msgPool.prepares.items, v);
    }

    method HandleCommit(v: Vote)
      requires Valid()
      modifies pbftMeta.msgPool.commits
      ensures Valid() && pbftMeta.View() == HeardCommit(old(pbftMeta.View()), v)
    {
      if pbftMeta.curViewSeq.Compare(v.at) > 0 { return; }
      ghost var before := pbftMeta.msgPool.commits.items;
      pbftMeta.msgPool.PushCommitMsg(v);
      SetOfPushed(before, pbftMeta.msgPool.commits.items, v);
    }

    // ---------------------------------------------------------------------- the stage loop

    /**
     * Step as far as the votes reach. A decided block is added to the chain if it applies; height and sequence number
     * stay in step exactly when it does and carries the height that belongs to the round of its proposal.
     */
    method Step2NextStage() returns (out: seq<Sent>, decided: Option<Preprepare>, added: bool)
      requires Valid()
      modifies bc, pbftMeta
      ensures Valid() && pbftMeta.View() == SteppedThrough(old(pbftMeta.View()))
      ensures out == VotesOf(old(pbftMeta.View()), nodeID)
      ensures decided == if Decides(old(pbftMeta.View())) then old(pbftMeta.curPreprepare) else None
      ensures decided.None? ==> !added && unchanged(bc)
      ensures decided.Some? ==>
        var next := Extended(old(Copy()), bc.shardNum, bc.shardID, decided.value.block);
        (added <==> next.Some?) && Copy() == if added then next.value else old(Copy())
      ensures old(InStep()) ==>
        (InStep() <==> decided.None? || (added && decided.value.block.header.number == decided.value.at.seq_ + 2))
    {
      added := false;
      out, decided := RunStages();
      if decided.Some? { added := bc.AddBlock(decided.value.block); }
    }

    /** One turn of the stage loop. */
    method Turn() returns (sent: seq<Sent>, decided: Option<Preprepare>, over: bool)
      requires RoundValid()
      modifies pbftMeta
      ensures RoundValid()
      ensures over ==>
        && pbftMeta.View() == SteppedThrough(old(pbftMeta.View())) && sent == [] == VotesOf(old(pbftMeta.View()), nodeID)
        && decided == (if Decides(old(pbftMeta.View())) then old(pbftMeta.curPreprepare) else None)
        && pbftMeta.curViewSeq == (if decided.Some? then old(pbftMeta.curViewSeq).(seq_ := old(pbftMeta.curViewSeq.seq_) + 1) else old(pbftMeta.curViewSeq))
      ensures !over ==>
        && SteppedThrough(pbftMeta.View()) == SteppedThrough(old(pbftMeta.View()))
        && sent + VotesOf(pbftMeta.View(), nodeID) == VotesOf(old(pbftMeta.View()), nodeID)
        && Decides(pbftMeta.View()) == Decides(old(pbftMeta.View())) && pbftMeta.curPreprepare == old(pbftMeta.curPreprepare)
        && pbftMeta.curViewSeq == old(pbftMeta.curViewSeq) && TurnsLeft(pbftMeta.stage) < TurnsLeft(old(pbftMeta.stage))
    {
      var pp := pbftMeta.curPreprepare;
      OneTurn(pbftMeta.View(), nodeID);
      hide SteppedThrough, VotesOf, Decides;
      var r := pbftMeta.Step2Next();
      var (oldStage, newStage) := r.value;
      if oldStage == newStage { return [], None, true; }
      match newStage {
        case StagePreprepare => return [], pbftMeta.lastProposal, true;
        case StagePrepare => return [SentPrepare(Vote(pp.value.at, pp.value.digest, nodeID))], None, false;
        case StageCommit => return [SentCommit(Vote(pp.value.at, pp.value.digest, nodeID))], None, false;
      }
    }

    /** The stage transitions of a tick, and the proposal they decide. */
    method RunStages() returns (out: seq<Sent>, decided: Option<Preprepare>)
      requires RoundValid()
      modifies pbftMeta
      ensures RoundValid() && pbftMeta.View() == SteppedThrough(old(pbftMeta.View()))
      ensures out == VotesOf(old(pbftMeta.View()), nodeID)
      ensures decided == if Decides(old(pbftMeta.View())) then old(pbftMeta.curPreprepare) else None
      ensures pbftMeta.curViewSeq == if decided.Some? then old(pbftMeta.curViewSeq).(seq_ := old(pbftMeta.curViewSeq.seq_) + 1) else old(pbftMeta.curViewSeq)
    {
      hide SteppedThrough, VotesOf, Decides, SetOf, IsHeap;
      out := [];
      ghost var start, proposal, cur := pbftMeta.View(), pbftMeta.curPreprepare, pbftMeta.curViewSeq;
      while true
        invariant RoundValid() && SteppedThrough(pbftMeta.View()) == SteppedThrough(start)
        invariant out + VotesOf(pbftMeta.View(), nodeID) == VotesOf(start, nodeID)
        invariant Decides(pbftMeta.View()) == Decides(start) && pbftMeta.curPreprepare == proposal && pbftMeta.curViewSeq == cur
        decreases TurnsLeft(pbftMeta.stage)
      {
        var sent, over;
        ghost var before := VotesOf(pbftMeta.View(), nodeID);
        sent, decided, over := Turn();
        if over { return; }
        assert out + before == out + sent + VotesOf(pbftMeta.View(), nodeID);
        out := out + sent;
      }
    }

    /** A leader proposes the next block; its node field is left at zero. In step, the block has the height of the round. */
    method Propose(content: Content, digest: Digest, ghost a: S.Node, ghost cfg: S.Config) returns (out: Option<Preprepare>)
      requires Valid() && bc.Valid() && Holds(a) && cfg.shardNum == bc.shardNum && cfg.shard == bc.shardID
      modifies pbftMeta`proposed
      ensures Valid() && out == S.Proposed(cfg, a, digest, content)
      ensures pbftMeta.proposed == (old(pbftMeta.proposed) || out.Some?)
      ensures out.Some? ==> out.value.block.header.content == content && Follows(out.value.block.header, bc.curHeader)
      ensures out.Some? && InStep() ==> out.value.block.header.number == out.value.at.seq_ + 2
    {
      var b := bc.GenerateBlock(content);
      if b.None? { return None; }
      pbftMeta.proposed := true;
      return Some(Preprepare(pbftMeta.curViewSeq, digest, b.value, 0));
    }

    // ------------------------------------------------------------------------- catching up

    /** A follower asks for everything above its own height. */
    method CatchUpStart() returns (start: int)
      modifies pbftMeta`catchupStarted
      ensures start == bc.curHeader.number + 1 && pbftMeta.catchupStarted
    {
      start := bc.curHeader.number + 1;
      pbftMeta.catchupStarted := true;
    }

    /** The leader answers with its chain from there on, unless that is more than it will send at once. */
    method HandleCatchupReq(r: S.Request, ghost a: S.Node) returns (resp: Option<CatchupResp>)
      requires Valid() && bc.Valid() && Holds(a) && nodeID == INITIAL_LEADER
      ensures resp == match S.Replied(a, r) case None => None case Some(answer) => Some(answer.resp)
    {
      var start := r.start;
      var blocks := bc.GetBlocksAfterHeight(start);
      if blocks.None? { return None; }
      return Some(CatchupResp(blocks.value, pbftMeta.curViewSeq, nodeID));
    }

    /** Blocks are added in order up to the first that fails. */
    method AddBlocks(blocks: seq<Block>) returns (ok: bool)
      requires Valid()
      modifies bc
      ensures Valid() && (Copy(), ok) == ExtendedAll(old(Copy()), bc.shardNum, bc.shardID, blocks)
    {
      ghost var start := Copy();
      hide Applied;
      for i := 0 to |blocks|
        invariant Valid() && (Copy(), true) == ExtendedAll(start, bc.shardNum, bc.shardID, blocks[..i])
      {
        assert blocks[..i + 1][..i] == blocks[..i];
        var added := bc.AddBlock(blocks[i]);
        if !added {
          ExtendingStops(start, bc.shardNum, bc.shardID, blocks, i + 1);
          return false;
        }
      }
      assert blocks[..|blocks|] == blocks;
      return true;
    }

    /**
     * The round machine follows only when all blocks apply. When one fails, those before it stay on the chain and
     * the catch-up stays open, so that no other one is started.
     */
    method HandleCatchupResp(resp: CatchupResp, ghost a: S.Node, ghost cfg: S.Config) returns (ok: bool)
      requires Valid() && Holds(a) && cfg.shardNum == bc.shardNum && cfg.shard == bc.shardID
      modifies bc, pbftMeta
      ensures Valid() && Holds(S.ReceivedNode(cfg, a, resp))
      ensures ok <==> S.Adopts(cfg, a, resp)
    {
      if pbftMeta.leader != resp.node { return false; }
      if !pbftMeta.catchupStarted { return false; }
      ok := AddBlocks(resp.blocks);
      if !ok { return; }
      pbftMeta.CatchupOverAndReset(resp.next);
    }
  }

  /** The first failing block ends the list, whatever follows. */
  lemma {:induction false} ExtendingStops(r: Replica, shardNum: nat, shard: Shard, blocks: seq<Block>, n: nat)
    requires shardNum > 0 && n <= |blocks| && !ExtendedAll(r, shardNum, shard, blocks[..n]).1
    ensures ExtendedAll(r, shardNum, shard, blocks) == ExtendedAll(r, shardNum, shard, blocks[..n])
  {
    if n == |blocks| {
      assert blocks[..n] == blocks;
    } else {
      assert blocks[..|blocks| - 1][..n] == blocks[..n];
      ExtendingStops(r, shardNum, shard, blocks[..|blocks| - 1], n);
    }
  }

  lemma SetOfPushed<T>(before: seq<T>, after: seq<T>, x: T)
    requires multiset(after) == multiset(before) + multiset{x}
    ensures SetOf(after) == SetOf(before) + {x}
  {
    forall y ensures y in after <==> y in before || y == x {
      assert y in multiset(after) <==> y in after;
      assert y in multiset(before) <==> y in before;
    }
  }
}
