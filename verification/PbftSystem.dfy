/** PBFT with n nodes as a transition system: round machines, chains, catching up, and an adversarial network. */
module PbftSystem {
  import opened Prelude
  import opened Accounts
  import opened ViewSeqs
  import opened MsgPools
  import opened PbftMeta
  import opened Chain

  /** faulty holds the nodes that may send anything under their own name. */
  datatype Config = Config(n: nat, faulty: set<NodeId>, shardNum: nat, shard: Shard)

  /** One node; what it has heard and decided is history. */
  datatype Node = Node(m: Meta, chain: Replica, heardPrepares: set<Vote>, heardCommits: set<Vote>, decided: seq<Preprepare>)

  datatype Request = Request(node: nat, start: int)

  /** An answer on its way; what it answers and the chain it was taken from are history. */
  datatype Answer = Answer(dest: nat, resp: CatchupResp, start: int, source: Replica)

  /** The network keeps everything that was ever sent: it may be delivered late, repeatedly, or never. */
  datatype Net = Net(
    nodes: seq<Node>,
    preprepares: set<Preprepare>,
    prepares: set<Vote>,
    commits: set<Vote>,
    requests: set<Request>,
    answers: set<Answer>)

  datatype Event =
    | ForgePreprepare(pp: Preprepare)
    | ForgePrepare(v: Vote)
    | ForgeCommit(v: Vote)
    | ForgeAnswer(a: Answer)
    | HearPreprepare(i: nat, pp: Preprepare, valid: bool)
    | HearPrepare(i: nat, v: Vote)
    | HearCommit(i: nat, v: Vote)
    | Curate(i: nat, choice: Option<Preprepare>)
    | Step(i: nat)
    | Propose(digest: Digest, content: Content)
    | Ask(i: nat)
    | Reply(r: Request)
    | Receive(a: Answer)

  predicate IsConfig(cfg: Config) {
    cfg.n > 0 && cfg.shardNum > 0 && forall x :: x in cfg.faulty ==> 0 <= x < cfg.n
  }

  predicate Correct(cfg: Config, net: Net, i: nat) {
    i < |net.nodes| && i !in cfg.faulty
  }

  ghost predicate Enabled(cfg: Config, net: Net, e: Event) {
    && cfg.shardNum > 0
    && match e
       case ForgePreprepare(pp) => pp.node in cfg.faulty
       case ForgePrepare(v) => v.node in cfg.faulty
       case ForgeCommit(v) => v.node in cfg.faulty
       case ForgeAnswer(a) => a.resp.node in cfg.faulty
       case HearPreprepare(i, pp, _) => Correct(cfg, net, i) && pp in net.preprepares
       case HearPrepare(i, v) => Correct(cfg, net, i) && v in net.prepares
       case HearCommit(i, v) => Correct(cfg, net, i) && v in net.commits
       case Curate(i, choice) => Correct(cfg, net, i) && (net.nodes[i].m.proposal.None? ==> IsChoice(net.nodes[i].m, choice))
       case Step(i) => Correct(cfg, net, i) && Stepped(net.nodes[i].m).Some?
       case Propose(_, _) =>
         Correct(cfg, net, 0) && net.nodes[0].m.stage == StagePreprepare && !net.nodes[0].m.proposed && net.nodes[0].chain.history != []
       // Only a node that is not the leader asks.
       case Ask(i) => Correct(cfg, net, i) && i != INITIAL_LEADER && CatchupDue(net.nodes[i].m)
       case Reply(r) => Correct(cfg, net, 0) && r in net.requests
       case Receive(a) => Correct(cfg, net, a.dest) && a in net.answers
  }

  // -------------------------------------------------------------------------- one node

  /** The node takes the block it has decided, if its transactions execute; the round is over in any case. */
  ghost function DecidedNode(cfg: Config, a: Node, m': Meta): Node
    requires cfg.shardNum > 0 && a.m.proposal.Some?
  {
    var pp := a.m.proposal.value;
    var chain := Extended(a.chain, cfg.shardNum, cfg.shard, pp.block);
    a.(m := m', decided := a.decided + [pp], chain := if chain.Some? then chain.value else a.chain)
  }

  /** The votes and the decision that go with a stage transition. */
  ghost function SteppedNode(cfg: Config, net: Net, i: nat): Net
    requires cfg.shardNum > 0 && i < |net.nodes| && Stepped(net.nodes[i].m).Some?
  {
    var a := net.nodes[i];
    var m' := Stepped(a.m).value;
    if m'.stage == a.m.stage || a.m.proposal.None? then net.(nodes := net.nodes[i := a.(m := m')]) else
    var pp := a.m.proposal.value;
    var vote := Vote(pp.at, pp.digest, i);
    match m'.stage
    case StagePrepare => net.(nodes := net.nodes[i := a.(m := m')], prepares := net.prepares + {vote})
    case StageCommit => net.(nodes := net.nodes[i := a.(m := m')], commits := net.commits + {vote})
    case _ => net.(nodes := net.nodes[i := DecidedNode(cfg, a, m')])
  }

  /** The block that follows the leader's chain, if the preview of its transactions succeeds. */
  ghost function Proposed(cfg: Config, a: Node, digest: Digest, content: Content): Option<Preprepare>
    requires cfg.shardNum > 0 && a.chain.history != []
  {
    if Applied(a.chain.state, cfg.shardNum, cfg.shard, content).None? then None else
    var last := a.chain.history[|a.chain.history| - 1].header;
    Some(Preprepare(a.m.cur, digest, Block(Header(HashOfHeader(last), last.number + 1, content)), INITIAL_LEADER))
  }

  /** Everything above the asked height, unless that is more than is sent at once. */
  function Replied(a: Node, r: Request): Option<Answer> {
    if r.start <= 0 || a.chain.Height() - r.start + 1 > BLOCKS_FETCH_LIMIT then None else
    Some(Answer(r.node, CatchupResp(BlocksFrom(a.chain.history, r.start), a.m.cur, INITIAL_LEADER), r.start, a.chain))
  }

  predicate IsWanted(a: Node, resp: CatchupResp) { a.m.leader == resp.node && a.m.catchupStarted }

  /** The node adopts the round of this answer: it was waiting for one, and all of its blocks execute. */
  ghost predicate Adopts(cfg: Config, a: Node, resp: CatchupResp)
    requires cfg.shardNum > 0
  {
    IsWanted(a, resp) && ExtendedAll(a.chain, cfg.shardNum, cfg.shard, resp.blocks).1
  }

  ghost function ReceivedNode(cfg: Config, a: Node, resp: CatchupResp): Node
    requires cfg.shardNum > 0
  {
    if !IsWanted(a, resp) then a else
    var (chain, ok) := ExtendedAll(a.chain, cfg.shardNum, cfg.shard, resp.blocks);
    if ok then a.(chain := chain, m := CaughtUp(a.m, resp.next)) else a.(chain := chain)
  }

  // -------------------------------------------------------------------------- the steps

  ghost function Next(cfg: Config, net: Net, e: Event): Net
    requires Enabled(cfg, net, e)
  {
    match e
    case ForgePreprepare(pp) => net.(preprepares := net.preprepares + {pp})
    case ForgePrepare(v) => net.(prepares := net.prepares + {v})
    case ForgeCommit(v) => net.(commits := net.commits + {v})
    case ForgeAnswer(a) => net.(answers := net.answers + {a})
    case HearPreprepare(i, pp, valid) => net.(nodes := net.nodes[i := net.nodes[i].(m := HeardPreprepare(net.nodes[i].m, pp, valid))])
    case HearPrepare(i, v) =>
      net.(nodes := net.nodes[i := net.nodes[i].(m := HeardPrepare(net.nodes[i].m, v), heardPrepares := net.nodes[i].heardPrepares + {v})])
    case HearCommit(i, v) =>
      net.(nodes := net.nodes[i := net.nodes[i].(m := HeardCommit(net.nodes[i].m, v), heardCommits := net.nodes[i].heardCommits + {v})])
    case Curate(i, choice) => net.(nodes := net.nodes[i := net.nodes[i].(m := Curated(net.nodes[i].m, choice))])
    case Step(i) => SteppedNode(cfg, net, i)
    case Propose(digest, content) =>
      var pp := Proposed(cfg, net.nodes[0], digest, content);
      if pp.None? then net else
      net.(nodes := net.nodes[0 := net.nodes[0].(m := net.nodes[0].m.(proposed := true))], preprepares := net.preprepares + {pp.value})
    case Ask(i) =>
      net.(nodes := net.nodes[i := net.nodes[i].(m := net.nodes[i].m.(catchupStarted := true))],
           requests := net.requests + {Request(i, net.nodes[i].chain.Height() + 1)})
    case Reply(r) =>
      var a := Replied(net.nodes[0], r);
      if a.None? then net else net.(answers := net.answers + {a.value})
    case Receive(a) => net.(nodes := net.nodes[a.dest := ReceivedNode(cfg, net.nodes[a.dest], a.resp)])
  }

  function Start(cfg: Config): Net {
    Net(seq(cfg.n, _ => Node(InitialMeta(cfg.n), NEW_REPLICA, {}, {}, [])), {}, {}, {}, {}, {})
  }

  ghost function Run(cfg: Config, es: seq<Event>): Option<Net> {
    if es == [] then Some(Start(cfg)) else
    match Run(cfg, es[..|es| - 1])
    case None => None
    case Some(net) => if Enabled(cfg, net, es[|es| - 1]) then Some(Next(cfg, net, es[|es| - 1])) else None
  }

  /** The events that leave rounds, decisions, chains and requests alone. */
  predicate IsQuiet(e: Event) { !e.Step? && !e.Propose? && !e.Ask? && !e.Reply? && !e.Receive? }

  lemma QuietRecord(cfg: Config, net: Net, e: Event, i: nat)
    requires Enabled(cfg, net, e) && IsQuiet(e) && i < |net.nodes|
    ensures var net' := Next(cfg, net, e);
            && |net'.nodes| == |net.nodes| && net'.nodes[i].chain == net.nodes[i].chain && net'.nodes[i].decided == net.nodes[i].decided
            && var m, m' := net.nodes[i].m, net'.nodes[i].m;
               && m'.cur == m.cur && m'.stage == m.stage && m'.proposed == m.proposed && m'.catchupStarted == m.catchupStarted
               && m'.leader == m.leader
  {
    hide LaterVotes, LaterPreprepares, Senders, IsChoice, Below;
  }

  /** Every event of the run passes the test in the state it happens in. */
  ghost predicate Throughout(cfg: Config, es: seq<Event>, test: (Net, Event) -> bool) {
    es == [] ||
    (Throughout(cfg, es[..|es| - 1], test) &&
     match Run(cfg, es[..|es| - 1]) case None => false case Some(net) => test(net, es[|es| - 1]))
  }

  /** A correct node adopts another round in this event. */
  ghost predicate IsAdoption(cfg: Config, net: Net, e: Event) {
    cfg.shardNum > 0 && e.Receive? && Correct(cfg, net, e.a.dest) && Adopts(cfg, net.nodes[e.a.dest], e.a.resp)
  }

  /** Rounds are only ever left for later ones. */
  ghost function Forward(cfg: Config): (Net, Event) -> bool {
    (net: Net, e: Event) => IsAdoption(cfg, net, e) ==> Below(net.nodes[e.a.dest].m.cur, e.a.resp.next)
  }
}
