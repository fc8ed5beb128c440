/** Payments and their legs, counted over whole runs: none is executed twice, and none is lost but with an aborted pack. */
module ShardingOnce {
  import opened Prelude
  import opened Accounts
  import opened Transactions
  import opened Chain
  import opened RelayOps
  import opened Sharding
  import opened ShardingInvariant
  import opened ShardingSteps
  import opened ShardingTheorems
  import opened TxCounts

  // ------------------------------------------------------------------ what is counted

  /** The payment before it has left its payer: whole, or as a first leg. */
  function Unpaid(b: TxBody): Tx -> int { (tx: Tx) => if tx.body == b && tx.stage != Relay2 then 1 else 0 }

  /** The payment in one piece. */
  function Whole(b: TxBody): Tx -> int { (tx: Tx) => if tx.body == b && tx.stage == Undetermined then 1 else 0 }

  function FirstLeg(b: TxBody): Tx -> int { (tx: Tx) => if tx.body == b && tx.stage == Relay1 then 1 else 0 }

  function SecondLeg(b: TxBody): Tx -> int { (tx: Tx) => if tx.body == b && tx.stage == Relay2 then 1 else 0 }

  /** Everything the run has injected. */
  function IncomingIn(acts: seq<Action>): seq<Tx> {
    if acts == [] then [] else IncomingIn(acts[..|acts| - 1]) + Incoming(acts[|acts| - 1])
  }

  /** Everything the run has committed, block by block. */
  ghost function CommittedIn(cfg: Cfg, acts: seq<Action>): seq<Tx> {
    if acts == [] then [] else
    var most := acts[..|acts| - 1];
    CommittedIn(cfg, most) + match Run(cfg, most) case None => [] case Some(sys) => Committed(sys, acts[|acts| - 1])
  }

  /** Everything the run has lost with aborted packs. */
  ghost function AbortedIn(cfg: Cfg, acts: seq<Action>): seq<Tx> {
    if acts == [] then [] else
    var most := acts[..|acts| - 1];
    AbortedIn(cfg, most) + match Run(cfg, most) case None => [] case Some(sys) => Aborted(cfg, sys, acts[|acts| - 1])
  }

  // ------------------------------------------------------------------------ whole runs

  lemma {:induction false} LegsAppend(a: seq<Tx>, b: seq<Tx>)
    ensures Relay2Legs(a + b) == Relay2Legs(a) + Relay2Legs(b)
  {
    if b == [] {
      assert a + b == a;
    } else {
      assert (a + b)[..|a + b| - 1] == a + b[..|b| - 1];
      LegsAppend(a, b[..|b| - 1]);
    }
  }

  lemma {:induction false} NobodyStarts(ls: seq<Leader>, f: Tx -> int)
    requires forall i :: 0 <= i < |ls| ==> ls[i] == InitialLeader()
    ensures SeqSum(ls, AtLeader(f)) == 0
  {
    if ls != [] { NobodyStarts(ls[..|ls| - 1], f); }
  }

  /** By any measure: what has come in, and the second legs of what was committed, is in the system, committed or aborted. */
  lemma {:induction false} RunCounts(cfg: Cfg, acts: seq<Action>, sys: Sys, f: Tx -> int)
    requires Reaches(cfg, acts, sys) && IgnoresTags(f)
    ensures InSystem(sys, f) + SeqSum(CommittedIn(cfg, acts), f) + SeqSum(AbortedIn(cfg, acts), f)
            == SeqSum(IncomingIn(acts), f) + SeqSum(LegsOf(CommittedIn(cfg, acts)), f)
  {
    if acts == [] {
      NobodyStarts(sys.shards, f);
    } else {
      var most, last := acts[..|acts| - 1], acts[|acts| - 1];
      assert acts == most + [last];
      var mid := LastStep(cfg, acts, most, last, sys);
      RunCounts(cfg, most, mid, f);
      RunKeepsInv(cfg, most);
      hide Inv, Enabled, Next, InSystem, IgnoresTags;
      StepCounts(cfg, mid, last, f);
      var before, block := CommittedIn(cfg, most), Committed(mid, last);
      SeqSumAppend(before, block, f);
      SeqSumAppend(AbortedIn(cfg, most), Aborted(cfg, mid, last), f);
      SeqSumAppend(IncomingIn(most), Incoming(last), f);
      PickAppend(before, block, OfStage(Relay1));
      LegsAppend(Pick(before, OfStage(Relay1)), Pick(block, OfStage(Relay1)));
      SeqSumAppend(LegsOf(before), LegsOf(block), f);
    }
  }

  lemma {:induction false} LegsCount(txs: seq<Tx>, b: TxBody)
    ensures SeqSum(LegsOf(txs), Unpaid(b)) == 0 && SeqSum(LegsOf(txs), SecondLeg(b)) == SeqSum(txs, FirstLeg(b))
  {
    if txs != [] {
      var most, last := txs[..|txs| - 1], txs[|txs| - 1];
      LegsCount(most, b);
      LegsSnoc(most, last, b);
      assert txs == most + [last];
    }
  }

  lemma LegsSnoc(most: seq<Tx>, last: Tx, b: TxBody)
    ensures SeqSum(LegsOf(most + [last]), Unpaid(b)) == SeqSum(LegsOf(most), Unpaid(b))
    ensures SeqSum(LegsOf(most + [last]), SecondLeg(b)) == SeqSum(LegsOf(most), SecondLeg(b)) + FirstLeg(b)(last)
  {
    var before := Pick(most, OfStage(Relay1));
    PickSnoc(most, last, OfStage(Relay1));
    if last.stage == Relay1 {
      assert (before + [last])[..|before|] == before;
      hide Pick;
      assert LegsOf(most + [last]) == LegsOf(most) + [AsRelay2(last)];
      SeqSumSnoc(LegsOf(most), AsRelay2(last), Unpaid(b));
      SeqSumSnoc(LegsOf(most), AsRelay2(last), SecondLeg(b));
    }
  }

  lemma {:induction false} StagesCount(txs: seq<Tx>, b: TxBody)
    ensures SeqSum(txs, Unpaid(b)) == SeqSum(txs, Whole(b)) + SeqSum(txs, FirstLeg(b))
  {
    if txs != [] { StagesCount(txs[..|txs| - 1], b); }
  }

  lemma {:induction false} FreshCount(cfg: Cfg, txs: seq<Tx>, b: TxBody)
    requires forall tx :: tx in txs ==> FreshTx(cfg, tx)
    ensures SeqSum(txs, SecondLeg(b)) == 0
  {
    if txs != [] {
      assert txs[|txs| - 1] in txs;
      FreshCount(cfg, txs[..|txs| - 1], b);
    }
  }

  lemma {:induction false} IncomingAreWhole(cfg: Cfg, acts: seq<Action>, sys: Sys, b: TxBody)
    requires Reaches(cfg, acts, sys)
    ensures SeqSum(IncomingIn(acts), SecondLeg(b)) == 0
  {
    if acts != [] {
      var most, last := acts[..|acts| - 1], acts[|acts| - 1];
      assert acts == most + [last];
      var mid := LastStep(cfg, acts, most, last, sys);
      IncomingAreWhole(cfg, most, mid, b);
      if last.Inject? { FreshCount(cfg, last.txs, b); }
      SeqSumAppend(IncomingIn(most), Incoming(last), SecondLeg(b));
    }
  }

  // ------------------------------------------------------------------------- theorems

  /**
   * Each payment, in every run, across migrations and reorderings: as often as it was injected it is still unpaid in the
   * system, or was committed whole or as a first leg, or was lost with an aborted pack. And as often as its first leg
   * was committed, its second leg is still in the system, or was committed, or was lost with an aborted pack.
   */
  lemma ExactlyOnce(cfg: Cfg, acts: seq<Action>, sys: Sys, b: TxBody)
    requires Reaches(cfg, acts, sys)
    ensures var committed, aborted := CommittedIn(cfg, acts), AbortedIn(cfg, acts);
            && SeqSum(IncomingIn(acts), Unpaid(b)) ==
               InSystem(sys, Unpaid(b)) + SeqSum(committed, Whole(b)) + SeqSum(committed, FirstLeg(b)) + SeqSum(aborted, Unpaid(b))
            && SeqSum(committed, FirstLeg(b)) ==
               InSystem(sys, SecondLeg(b)) + SeqSum(committed, SecondLeg(b)) + SeqSum(aborted, SecondLeg(b))
  {
    RunCounts(cfg, acts, sys, Unpaid(b));
    RunCounts(cfg, acts, sys, SecondLeg(b));
    IncomingAreWhole(cfg, acts, sys, b);
    LegsCount(CommittedIn(cfg, acts), b);
    StagesCount(CommittedIn(cfg, acts), b);
  }

  lemma {:induction false} InMessages(net: seq<Msg>, f: Tx -> int)
    requires forall tx: Tx :: f(tx) >= 0
    ensures SeqSum(net, InMsg(f)) >= 0
  {
    if net != [] {
      InMessages(net[..|net| - 1], f);
      if net[|net| - 1].ReceiveTxs? { SeqSumNonNegative(net[|net| - 1].txs, f); }
    }
  }

  lemma {:induction false} InShards(ls: seq<Leader>, f: Tx -> int)
    requires forall tx: Tx :: f(tx) >= 0
    ensures SeqSum(ls, AtLeader(f)) >= 0
  {
    if ls != [] {
      var l := ls[|ls| - 1];
      InShards(ls[..|ls| - 1], f);
      SeqSumNonNegative(l.pool, f);
      match l.proposal
      case Some(TxContent(txs)) => SeqSumNonNegative(txs, f);
      case _ =>
    }
  }

  lemma NoneIsNegative(sys: Sys, txs: seq<Tx>, f: Tx -> int)
    requires forall tx: Tx :: f(tx) >= 0
    ensures InSystem(sys, f) >= 0 && SeqSum(txs, f) >= 0
  {
    InMessages(sys.net, f);
    InShards(sys.shards, f);
    SeqSumNonNegative(txs, f);
  }

  /** No payment is debited more often than it was injected, nor credited more often than it was debited. */
  lemma NeverTwice(cfg: Cfg, acts: seq<Action>, sys: Sys, b: TxBody)
    requires Reaches(cfg, acts, sys)
    ensures var committed := CommittedIn(cfg, acts);
            SeqSum(committed, Whole(b)) + SeqSum(committed, SecondLeg(b)) <= SeqSum(committed, Whole(b)) + SeqSum(committed, FirstLeg(b))
            <= SeqSum(IncomingIn(acts), Unpaid(b))
  {
    ExactlyOnce(cfg, acts, sys, b);
    NoneIsNegative(sys, AbortedIn(cfg, acts), Unpaid(b));
    NoneIsNegative(sys, AbortedIn(cfg, acts), SecondLeg(b));
  }

  /**
   * When nothing of a payment is left in the system, it has been debited and credited as often as it was injected if and
   * only if none of it was lost with an aborted pack.
   */
  lemma PaidInFullExactlyWhen(cfg: Cfg, acts: seq<Action>, sys: Sys, b: TxBody)
    requires Reaches(cfg, acts, sys) && InSystem(sys, Unpaid(b)) == 0 && InSystem(sys, SecondLeg(b)) == 0
    ensures var committed, aborted, injected := CommittedIn(cfg, acts), AbortedIn(cfg, acts), SeqSum(IncomingIn(acts), Unpaid(b));
            (SeqSum(committed, Whole(b)) + SeqSum(committed, FirstLeg(b)) == injected &&
             SeqSum(committed, Whole(b)) + SeqSum(committed, SecondLeg(b)) == injected)
            <==> forall tx :: tx in aborted ==> tx.body != b
  {
    ExactlyOnce(cfg, acts, sys, b);
    LostCount(AbortedIn(cfg, acts), b);
  }

  lemma {:induction false} LostCount(txs: seq<Tx>, b: TxBody)
    ensures SeqSum(txs, Unpaid(b)) >= 0 && SeqSum(txs, SecondLeg(b)) >= 0
    ensures SeqSum(txs, Unpaid(b)) + SeqSum(txs, SecondLeg(b)) == 0 <==> forall tx :: tx in txs ==> tx.body != b
  {
    if txs != [] {
      var most, last := txs[..|txs| - 1], txs[|txs| - 1];
      assert txs == most + [last];
      LostCount(most, b);
    }
  }
}
