/** When a node asks to catch up: what it waits for, and what it has heard, over whole runs. */
module PbftAsking {
  import opened Prelude
  import opened ViewSeqs
  import opened MsgPools
  import opened PbftMeta
  import opened PbftSystem
  import opened PbftAgreement
  import opened PbftPrepared
  import opened PbftCatchup
  import opened Chain

  /** The node has asked to catch up and has not adopted an answer since. */
  ghost predicate Awaits(cfg: Config, es: seq<Event>, i: nat) {
    if es == [] then false else
    var most, e := es[..|es| - 1], es[|es| - 1];
    e == Ask(i) ||
    (Awaits(cfg, most, i) && !(Run(cfg, most).Some? && IsAdoption(cfg, Run(cfg, most).value, e) && e.a.dest == i))
  }

  lemma WaitingStep(cfg: Config, net: Net, e: Event, i: nat)
    requires Enabled(cfg, net, e) && i < |net.nodes| && i !in cfg.faulty
    ensures i < |Next(cfg, net, e).nodes|
    ensures Next(cfg, net, e).nodes[i].m.catchupStarted <==>
            e == Ask(i) || (net.nodes[i].m.catchupStarted && !(IsAdoption(cfg, net, e) && e.a.dest == i))
  {
    if IsQuiet(e) {
      QuietRecord(cfg, net, e, i);
    } else {
      hide Extended, ExtendedAll, Proposed, Replied, CatchupDue;
    }
  }

  /** A catch-up is open from the request to the adoption of an answer. */
  lemma {:induction false} WaitsExactlyWhen(cfg: Config, es: seq<Event>, net: Net, i: nat)
    requires IsConfig(cfg) && Run(cfg, es) == Some(net) && i < cfg.n && i !in cfg.faulty
    ensures |net.nodes| == cfg.n && (net.nodes[i].m.catchupStarted <==> Awaits(cfg, es, i))
  {
    if es != [] {
      var most, e := es[..|es| - 1], es[|es| - 1];
      var mid := Run(cfg, most).value;
      WaitsExactlyWhen(cfg, most, mid, i);
      SameNodes(cfg, mid, e);
      hide Enabled, Next, IsAdoption;
      WaitingStep(cfg, mid, e, i);
    }
  }

  // -------------------------------------------------------------------------- what was heard

  /** What the node has heard of as latest is the latest round of its validated proposals, but for those of past rounds. */
  ghost predicate HeardLatest(es: seq<Event>, m: Meta, i: nat) {
    && (m.latest == ViewSeq(0, 0) || exists pp :: Validated(es, i, pp) && pp.at == m.latest)
    && (forall pp :: Validated(es, i, pp) ==> AtMost(pp.at, m.latest) || Below(pp.at, m.cur))
    && AtMost(ViewSeq(0, 0), m.cur)
  }

  /** Only a validated proposal changes what was heard, and rounds never go back. */
  lemma HeardStep(cfg: Config, net: Net, e: Event, i: nat)
    requires IsConfig(cfg) && Enabled(cfg, net, e) && i < |net.nodes| && i !in cfg.faulty && Forward(cfg)(net, e)
    ensures i < |Next(cfg, net, e).nodes|
    ensures var m, m' := net.nodes[i].m, Next(cfg, net, e).nodes[i].m;
            && AtMost(m.cur, m'.cur)
            && m'.latest == if e.HearPreprepare? && e.i == i && e.valid && AtMost(m.cur, e.pp.at) && Below(m.latest, e.pp.at) then e.pp.at else m.latest
  {
    if IsQuiet(e) {
      QuietRecord(cfg, net, e, i);
      hide LaterVotes, LaterPreprepares, Senders, IsChoice;
    } else {
      hide Extended, ExtendedAll, Proposed, Replied, CatchupDue;
    }
  }

  lemma HeardGrows(es: seq<Event>, e: Event, m: Meta, m': Meta, i: nat)
    requires HeardLatest(es, m, i) && AtMost(m.cur, m'.cur)
    requires m'.latest == if e.HearPreprepare? && e.i == i && e.valid && AtMost(m.cur, e.pp.at) && Below(m.latest, e.pp.at) then e.pp.at else m.latest
    ensures HeardLatest(es + [e], m', i)
  {
    var es' := es + [e];
    assert e in es' && forall pp :: Validated(es, i, pp) ==> Validated(es', i, pp);
    CompareIsTotalOrder(ViewSeq(0, 0), m.cur, m'.cur);
    if m'.latest != m.latest {
      assert Validated(es', i, e.pp);
    }
    forall pp | Validated(es', i, pp) ensures AtMost(pp.at, m'.latest) || Below(pp.at, m'.cur) {
      assert Validated(es, i, pp) || e == HearPreprepare(i, pp, true);
      CompareIsTotalOrder(pp.at, m.latest, m'.latest);
      CompareIsTotalOrder(m.cur, m'.cur, pp.at);
    }
  }

  lemma {:induction false} RunHeard(cfg: Config, es: seq<Event>, net: Net, i: nat)
    requires IsConfig(cfg) && Run(cfg, es) == Some(net) && Throughout(cfg, es, Forward(cfg)) && i < cfg.n && i !in cfg.faulty
    ensures |net.nodes| == cfg.n && HeardLatest(es, net.nodes[i].m, i)
  {
    if es != [] {
      var most, e := es[..|es| - 1], es[|es| - 1];
      assert es == most + [e];
      var mid := Run(cfg, most).value;
      RunHeard(cfg, most, mid, i);
      SameNodes(cfg, mid, e);
      hide Enabled, Next, HeardLatest, AtMost, Below;
      HeardStep(cfg, mid, e, i);
      HeardGrows(most, e, mid.nodes[i].m, net.nodes[i].m, i);
    }
  }

  /** A proposal this node has validated is at least the threshold ahead of it, in its own view. */
  ghost predicate IsFarAhead(es: seq<Event>, m: Meta, i: nat, pp: Preprepare) {
    Validated(es, i, pp) && pp.at.view == m.cur.view && pp.at.seq_ >= m.cur.seq_ + CATCH_UP_THRESHOLD
  }

  /**
   * A follower asks exactly when it does not already await an answer, has validated a proposal far enough ahead in its
   * view, and none of a later view: a single proposal of a later view, whoever sent it, keeps it from asking.
   */
  lemma AsksExactlyWhen(cfg: Config, es: seq<Event>, net: Net, i: nat)
    requires IsConfig(cfg) && Run(cfg, es) == Some(net) && Throughout(cfg, es, Forward(cfg))
    requires i < cfg.n && i !in cfg.faulty && i != INITIAL_LEADER
    ensures i < |net.nodes|
    ensures Enabled(cfg, net, Ask(i)) <==>
            && !Awaits(cfg, es, i)
            && (exists pp :: IsFarAhead(es, net.nodes[i].m, i, pp))
            && (forall pp :: Validated(es, i, pp) ==> pp.at.view <= net.nodes[i].m.cur.view)
  {
    WaitsExactlyWhen(cfg, es, net, i);
    RunHeard(cfg, es, net, i);
    var m := net.nodes[i].m;
    if CatchupDue(m) {
      var pp :| Validated(es, i, pp) && pp.at == m.latest;
      assert IsFarAhead(es, m, i, pp);
    }
  }
}
