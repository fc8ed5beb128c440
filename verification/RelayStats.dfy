/** Pairing the two legs of relayed transactions in the supervisor's statistics. */
module RelayStats {
  import opened Prelude
  import opened Transactions
  import opened RelayOps

  datatype Times = Times(propose: int, commit: int)

  /** A transaction in a report: its original hash and when it was created. */
  datatype Reported = Reported(hash: TxHash, create: int)

  datatype BlockInfo = BlockInfo(epoch: int, times: Times, inner: seq<Reported>, r1: seq<Reported>, r2: seq<Reported>)

  datatype Life = Life(create: int, relay1: Option<Times>, relay2: Option<Times>)

  /** A line of the detail file. */
  datatype Line = InnerLine(hash: TxHash, create: int, times: Times) | CrossLine(hash: TxHash, life: Life)

  datatype Stats = Stats(open: map<TxHash, Life>, lines: seq<Line>, relay1Sum: map<int, int>, relay2Sum: map<int, int>, innerSum: map<int, int>)

  datatype Which = First | Second

  /** One leg as it is handled: which one, of what, in which block and epoch. */
  datatype Leg = Leg(which: Which, tx: Reported, times: Times, epoch: int)

  function CountOf(m: map<int, int>, e: int): int { if e in m then m[e] else 0 }

  function Bumped(m: map<int, int>, e: int, v: int): map<int, int> { m[e := CountOf(m, e) + v] }

  function CommitOf(t: Option<Times>): int { if t.Some? then t.value.commit else 0 }

  /** A leg opens a life cycle, or completes the one that is open and writes its line. */
  function WithLeg(s: Stats, leg: Leg): Stats {
    var h := leg.tx.hash;
    var known := if h in s.open then s.open[h] else Life(leg.tx.create, None, None);
    var life := if leg.which == First then known.(relay1 := Some(leg.times)) else known.(relay2 := Some(leg.times));
    if h !in s.open then s.(open := s.open[h := life]) else
    s.(open := s.open - {h}, lines := s.lines + [CrossLine(h, life)],
       relay1Sum := Bumped(s.relay1Sum, leg.epoch, CommitOf(life.relay1) - life.create),
       relay2Sum := Bumped(s.relay2Sum, leg.epoch, CommitOf(life.relay2) - CommitOf(life.relay1)))
  }

  function WithLegs(s: Stats, legs: seq<Leg>): Stats {
    if legs == [] then s else WithLeg(WithLegs(s, legs[..|legs| - 1]), legs[|legs| - 1])
  }

  function WithInner(s: Stats, info: BlockInfo, tx: Reported): Stats {
    s.(open := s.open - {tx.hash}, lines := s.lines + [InnerLine(tx.hash, tx.create, info.times)],
       innerSum := Bumped(s.innerSum, info.epoch, info.times.commit - tx.create))
  }

  function WithInners(s: Stats, info: BlockInfo, txs: seq<Reported>): Stats {
    if txs == [] then s else WithInner(WithInners(s, info, txs[..|txs| - 1]), info, txs[|txs| - 1])
  }

  function LegsIn(info: BlockInfo, which: Which, txs: seq<Reported>): seq<Leg> {
    seq(|txs|, i requires 0 <= i < |txs| => Leg(which, txs[i], info.times, info.epoch))
  }

  /** One report: inner transactions first, then the first legs, then the second. */
  function Handled(s: Stats, info: BlockInfo): Stats {
    WithLegs(WithLegs(WithInners(s, info, info.inner), LegsIn(info, First, info.r1)), LegsIn(info, Second, info.r2))
  }

  const EMPTY: Stats := Stats(map[], [], map[], map[], map[])
  const NO_EPOCHS: Epochs := Epochs(map[], map[], map[], map[], map[])

  // ---------------------------------------------------------------------------- epochs

  /** First proposal and last commit of each epoch, and how many transactions of each kind it had. */
  datatype Epochs = Epochs(start: map<int, int>, end: map<int, int>, relay1: map<int, int>, relay2: map<int, int>, inner: map<int, int>)

  function WithReport(es: Epochs, info: BlockInfo): Epochs {
    var e := info.epoch;
    Epochs(if e !in es.start || info.times.propose < es.start[e] then es.start[e := info.times.propose] else es.start,
           if e !in es.end || info.times.commit > es.end[e] then es.end[e := info.times.commit] else es.end,
           Bumped(es.relay1, e, |info.r1|), Bumped(es.relay2, e, |info.r2|), Bumped(es.inner, e, |info.inner|))
  }

  class RelayStats {
    var epochStartTime: map<int, int>
    var epochEndTime: map<int, int>
    var relay1TxNum: map<int, int>
    var relay2TxNum: map<int, int>
    var innerShardTxNum: map<int, int>
    var txLifecycles: map<TxHash, Life>
    var lines: seq<Line>
    var relay1TCLSum: map<int, int>
    var relay2TCLSum: map<int, int>
    var innerShardTCLSum: map<int, int>

    constructor ()
      ensures View() == EMPTY && Counts() == NO_EPOCHS
    {
      epochStartTime, epochEndTime, relay1TxNum, relay2TxNum, innerShardTxNum := map[], map[], map[], map[], map[];
      txLifecycles, lines, relay1TCLSum, relay2TCLSum, innerShardTCLSum := map[], [], map[], map[], map[];
    }

    ghost function View(): Stats
      reads this
    {
      Stats(txLifecycles, lines, relay1TCLSum, relay2TCLSum, innerShardTCLSum)
    }

    ghost function Counts(): Epochs
      reads this
    {
      Epochs(epochStartTime, epochEndTime, relay1TxNum, relay2TxNum, innerShardTxNum)
    }

    /** A report counts for its epoch, and then its transactions are recorded one after the other. */
    method UpdateMeasureRecord(info: BlockInfo)
      modifies this
      ensures View() == Handled(old(View()), info) && Counts() == WithReport(old(Counts()), info)
    {
      CountReport(info);
      RecordInners(info);
      RecordLegs(info, First, info.r1);
      RecordLegs(info, Second, info.r2);
    }

    method RecordInners(info: BlockInfo)
      modifies this
      ensures View() == WithInners(old(View()), info, info.inner) && Counts() == old(Counts())
    {
      hide Bumped;
      ghost var s0 := View();
      for i := 0 to |info.inner|
        invariant View() == WithInners(s0, info, info.inner[..i]) && Counts() == old(Counts())
      {
        assert info.inner[..i + 1][..i] == info.inner[..i];
        var tx := info.inner[i];
        txLifecycles := txLifecycles - {tx.hash};
        innerShardTCLSum := Bumped(innerShardTCLSum, info.epoch, info.times.commit - tx.create);
        lines := lines + [InnerLine(tx.hash, tx.create, info.times)];
      }
      assert info.inner[..|info.inner|] == info.inner;
    }

    method CountReport(info: BlockInfo)
      modifies this
      ensures View() == old(View()) && Counts() == WithReport(old(Counts()), info)
    {
      var e := info.epoch;
      if e !in epochStartTime || info.times.propose < epochStartTime[e] { epochStartTime := epochStartTime[e := info.times.propose]; }
      if e !in epochEndTime || info.times.commit > epochEndTime[e] { epochEndTime := epochEndTime[e := info.times.commit]; }
      relay1TxNum := Bumped(relay1TxNum, e, |info.r1|);
      relay2TxNum := Bumped(relay2TxNum, e, |info.r2|);
      innerShardTxNum := Bumped(innerShardTxNum, e, |info.inner|);
    }

    method RecordLegs(info: BlockInfo, which: Which, txs: seq<Reported>)
      modifies this
      ensures View() == WithLegs(old(View()), LegsIn(info, which, txs)) && Counts() == old(Counts())
    {
      ghost var s0, legs := View(), LegsIn(info, which, txs);
      for i := 0 to |txs|
        invariant View() == WithLegs(s0, legs[..i]) && Counts() == old(Counts())
      {
        assert legs[..i + 1][..i] == legs[..i];
        RecordLeg(info, which, txs[i]);
      }
      assert legs[..|txs|] == legs;
    }

    method RecordLeg(info: BlockInfo, which: Which, tx: Reported)
      modifies this
      ensures View() == WithLeg(old(View()), Leg(which, tx, info.times, info.epoch)) && Counts() == old(Counts())
    {
      hide Bumped, CommitOf;
      var otherExists := tx.hash in txLifecycles;
      if !otherExists { txLifecycles := txLifecycles[tx.hash := Life(tx.create, None, None)]; }
      var life := txLifecycles[tx.hash];
      life := if which == First then life.(relay1 := Some(info.times)) else life.(relay2 := Some(info.times));
      txLifecycles := txLifecycles[tx.hash := life];
      if otherExists {
        relay1TCLSum := Bumped(relay1TCLSum, info.epoch, CommitOf(life.relay1) - life.create);
        relay2TCLSum := Bumped(relay2TCLSum, info.epoch, CommitOf(life.relay2) - CommitOf(life.relay1));
        lines := lines + [CrossLine(tx.hash, life)];
        txLifecycles := txLifecycles - {tx.hash};
      }
    }
  }

  // -------------------------------------------------------------------- what has been seen

  /** The leg of the given kind with this hash, if it is among the legs. */
  function Seen(legs: seq<Leg>, which: Which, h: TxHash): Option<Leg> {
    if legs == [] then None else
    var last := legs[|legs| - 1];
    if last.which == which && last.tx.hash == h then Some(last) else Seen(legs[..|legs| - 1], which, h)
  }

  lemma {:induction false} SeenIs(legs: seq<Leg>, which: Which, h: TxHash)
    ensures var s := Seen(legs, which, h);
            && (s.Some? ==> s.value in legs && s.value.which == which && s.value.tx.hash == h)
            && (s.None? ==> forall leg :: leg in legs ==> !(leg.which == which && leg.tx.hash == h))
  {
    if legs != [] {
      assert legs == legs[..|legs| - 1] + [legs[|legs| - 1]];
      SeenIs(legs[..|legs| - 1], which, h);
    }
  }

  /** Each leg of a hash occurs at most once, and both carry the creation time of the original. */
  ghost predicate LegsOk(legs: seq<Leg>) {
    && (forall i, j :: 0 <= i < j < |legs| ==> !(legs[i].which == legs[j].which && legs[i].tx.hash == legs[j].tx.hash))
    && (forall i, j :: 0 <= i < |legs| && 0 <= j < |legs| && legs[i].tx.hash == legs[j].tx.hash ==> legs[i].tx.create == legs[j].tx.create)
  }

  /** The line of a hash that was seen on both legs; the same whichever came first. */
  function LineOf(a: Leg, b: Leg): Line {
    CrossLine(a.tx.hash, Life(a.tx.create, Some(a.times), Some(b.times)))
  }

  ghost predicate HalfSeen(legs: seq<Leg>, h: TxHash) {
    Seen(legs, First, h).Some? != Seen(legs, Second, h).Some?
  }

  ghost predicate BothSeen(legs: seq<Leg>, h: TxHash) {
    Seen(legs, First, h).Some? && Seen(legs, Second, h).Some?
  }

  ghost function OpenLife(legs: seq<Leg>, h: TxHash): Life
    requires HalfSeen(legs, h)
  {
    var a, b := Seen(legs, First, h), Seen(legs, Second, h);
    if a.Some? then Life(a.value.tx.create, Some(a.value.times), None) else Life(b.value.tx.create, None, Some(b.value.times))
  }

  /** Open are exactly the half-seen hashes; written is one line for each hash seen on both legs, and nothing else. */
  ghost predicate Paired(s: Stats, legs: seq<Leg>) {
    && (forall h :: h in s.open <==> HalfSeen(legs, h))
    && (forall h :: h in s.open ==> s.open[h] == OpenLife(legs, h))
    && (forall h :: BothSeen(legs, h) ==> LineOf(Seen(legs, First, h).value, Seen(legs, Second, h).value) in s.lines)
    && (forall l :: l in s.lines ==> l.CrossLine? && BothSeen(legs, l.hash) && l == LineOf(Seen(legs, First, l.hash).value, Seen(legs, Second, l.hash).value))
    && (forall i, j :: 0 <= i < j < |s.lines| ==> s.lines[i].hash != s.lines[j].hash)
  }

  function Other(w: Which): Which { if w == First then Second else First }

  lemma SeenOneMore(legs: seq<Leg>, leg: Leg, which: Which, h: TxHash)
    ensures Seen(legs + [leg], which, h) == if leg.which == which && leg.tx.hash == h then Some(leg) else Seen(legs, which, h)
  {
    assert (legs + [leg])[..|legs|] == legs;
  }

  /** The new leg was not seen before; if its partner was, they were created at the same time. */
  lemma NewLeg(legs: seq<Leg>, leg: Leg)
    requires LegsOk(legs + [leg])
    ensures LegsOk(legs) && Seen(legs, leg.which, leg.tx.hash).None?
    ensures var o := Seen(legs, Other(leg.which), leg.tx.hash); o.Some? ==> o.value.tx.create == leg.tx.create && o.value.tx.hash == leg.tx.hash
  {
    var all := legs + [leg];
    assert all[|legs|] == leg;
    forall i, j | 0 <= i < j < |legs| ensures !(legs[i].which == legs[j].which && legs[i].tx.hash == legs[j].tx.hash) {
      assert all[i] == legs[i] && all[j] == legs[j];
    }
    forall i, j | 0 <= i < |legs| && 0 <= j < |legs| && legs[i].tx.hash == legs[j].tx.hash ensures legs[i].tx.create == legs[j].tx.create {
      assert all[i] == legs[i] && all[j] == legs[j];
    }
    SeenIs(legs, leg.which, leg.tx.hash);
    SeenIs(legs, Other(leg.which), leg.tx.hash);
    forall i | 0 <= i < |legs| ensures !(legs[i].which == leg.which && legs[i].tx.hash == leg.tx.hash) {
      assert all[i] == legs[i];
    }
    var o := Seen(legs, Other(leg.which), leg.tx.hash);
    if o.Some? {
      var i :| 0 <= i < |legs| && legs[i] == o.value;
      assert all[i] == o.value;
    }
  }

  /** all has seen what legs has seen, and the new leg. */
  ghost predicate SeenToo(legs: seq<Leg>, leg: Leg, all: seq<Leg>) {
    forall g: TxHash, w: Which :: Seen(all, w, g) == if leg.which == w && leg.tx.hash == g then Some(leg) else Seen(legs, w, g)
  }

  lemma FirstOfTwo(s: Stats, legs: seq<Leg>, leg: Leg, all: seq<Leg>)
    requires Paired(s, legs) && SeenToo(legs, leg, all) && Seen(legs, leg.which, leg.tx.hash).None? && leg.tx.hash !in s.open
    ensures Paired(WithLeg(s, leg), all)
  {
    hide Seen;
    var h := leg.tx.hash;
    assert !HalfSeen(legs, h);
    assert Seen(all, leg.which, h).Some? && Seen(all, Other(leg.which), h).None?;
    assert HalfSeen(all, h) && !BothSeen(legs, h) && !BothSeen(all, h);
    forall g | g != h ensures (HalfSeen(all, g) <==> HalfSeen(legs, g)) && (BothSeen(all, g) <==> BothSeen(legs, g)) {
    }
  }

  lemma SecondOfTwo(s: Stats, legs: seq<Leg>, leg: Leg, all: seq<Leg>)
    requires Paired(s, legs) && SeenToo(legs, leg, all) && Seen(legs, leg.which, leg.tx.hash).None? && leg.tx.hash in s.open
    requires var o := Seen(legs, Other(leg.which), leg.tx.hash); o.Some? ==> o.value.tx == leg.tx
    requires forall w: Which, g: TxHash :: Seen(all, w, g).Some? ==> Seen(all, w, g).value.tx.hash == g
    ensures Paired(WithLeg(s, leg), all)
  {
    hide Seen;
    var h, s' := leg.tx.hash, WithLeg(s, leg);
    assert HalfSeen(legs, h) && !BothSeen(legs, h) && BothSeen(all, h) && !HalfSeen(all, h);
    forall g | g != h ensures (HalfSeen(all, g) <==> HalfSeen(legs, g)) && (BothSeen(all, g) <==> BothSeen(legs, g)) {
    }
    var line := LineOf(Seen(all, First, h).value, Seen(all, Second, h).value);
    assert s'.lines == s.lines + [line];
    forall l | l in s.lines ensures l.hash != h {
    }
    forall l | l in s'.lines
      ensures l.CrossLine? && BothSeen(all, l.hash) && l == LineOf(Seen(all, First, l.hash).value, Seen(all, Second, l.hash).value)
    {
      assert l in s.lines || l == line;
    }
  }

  lemma LegPaired(s: Stats, legs: seq<Leg>, leg: Leg)
    requires Paired(s, legs) && LegsOk(legs + [leg])
    ensures Paired(WithLeg(s, leg), legs + [leg])
  {
    var all := legs + [leg];
    NewLeg(legs, leg);
    forall g: TxHash, w: Which ensures Seen(all, w, g) == if leg.which == w && leg.tx.hash == g then Some(leg) else Seen(legs, w, g) {
      SeenOneMore(legs, leg, w, g);
    }
    forall w: Which, g: TxHash ensures Seen(all, w, g).Some? ==> Seen(all, w, g).value.tx.hash == g {
      SeenIs(all, w, g);
    }
    hide LegsOk, Seen, Paired, WithLeg;
    if leg.tx.hash in s.open { SecondOfTwo(s, legs, leg, all); } else { FirstOfTwo(s, legs, leg, all); }
  }

  /** Whatever the order of arrival, the pairing is exact. */
  lemma {:induction false} PairingIsExact(legs: seq<Leg>)
    requires LegsOk(legs)
    ensures Paired(WithLegs(EMPTY, legs), legs)
  {
    if legs != [] {
      var most, last := legs[..|legs| - 1], legs[|legs| - 1];
      assert legs == most + [last];
      NewLeg(most, last);
      PairingIsExact(most);
      LegPaired(WithLegs(EMPTY, most), most, last);
    }
  }

  // ------------------------------------------------------------------- order independence

  lemma SeenAcross(a: seq<Leg>, b: seq<Leg>, which: Which, h: TxHash)
    requires LegsOk(b) && multiset(a) == multiset(b)
    ensures Seen(a, which, h).Some? ==> Seen(b, which, h) == Seen(a, which, h)
  {
    SeenIs(a, which, h);
    SeenIs(b, which, h);
    var x, y := Seen(a, which, h), Seen(b, which, h);
    if x.Some? {
      assert x.value in multiset(a);
      assert x.value in b;
      var i :| 0 <= i < |b| && b[i] == x.value;
      var j :| 0 <= j < |b| && b[j] == y.value;
    }
  }

  lemma SameSeen(a: seq<Leg>, b: seq<Leg>, which: Which, h: TxHash)
    requires LegsOk(a) && LegsOk(b) && multiset(a) == multiset(b)
    ensures Seen(a, which, h) == Seen(b, which, h)
  {
    SeenAcross(a, b, which, h);
    SeenAcross(b, a, which, h);
  }

  lemma ReorderedOk(a: seq<Leg>, b: seq<Leg>)
    requires LegsOk(a) && multiset(a) == multiset(b)
    ensures LegsOk(b)
  {
    forall i, j | 0 <= i < |b| && 0 <= j < |b| && b[i].tx.hash == b[j].tx.hash ensures b[i].tx.create == b[j].tx.create {
      assert b[i] in multiset(b) && b[j] in multiset(b);
      assert b[i] in a && b[j] in a;
    }
    forall i, j | 0 <= i < j < |b| ensures !(b[i].which == b[j].which && b[i].tx.hash == b[j].tx.hash) {
      TwoPlaces(a, b, i, j);
    }
  }

  lemma TwoPlaces(a: seq<Leg>, b: seq<Leg>, i: nat, j: nat)
    requires LegsOk(a) && multiset(a) == multiset(b) && i < j < |b|
    ensures !(b[i].which == b[j].which && b[i].tx.hash == b[j].tx.hash)
  {
    var x, y := b[i], b[j];
    assert b == b[..i] + [x] + b[i + 1..j] + [y] + b[j + 1..];
    assert multiset(a)[x] >= 1 && multiset(a)[y] >= 1 && (x == y ==> multiset(a)[x] >= 2);
    if x == y {
      OnlyOnce(a, x);
    } else {
      assert x in a && y in a;
      var k :| 0 <= k < |a| && a[k] == x;
      var l :| 0 <= l < |a| && a[l] == y;
    }
  }

  lemma {:induction false} OnlyOnce(a: seq<Leg>, x: Leg)
    requires LegsOk(a)
    ensures multiset(a)[x] <= 1
  {
    if a != [] {
      var most, last := a[..|a| - 1], a[|a| - 1];
      assert a == most + [last];
      NewLeg(most, last);
      OnlyOnce(most, x);
      SeenIs(most, last.which, last.tx.hash);
    }
  }

  /** Any two orders of arrival leave the same hashes open with the same contents, and the same lines written. */
  lemma OrderDoesNotMatter(a: seq<Leg>, b: seq<Leg>)
    requires LegsOk(a) && multiset(a) == multiset(b)
    ensures WithLegs(EMPTY, a).open == WithLegs(EMPTY, b).open
    ensures forall l :: l in WithLegs(EMPTY, a).lines <==> l in WithLegs(EMPTY, b).lines
  {
    ReorderedOk(a, b);
    PairingIsExact(a);
    PairingIsExact(b);
    forall w: Which, h: TxHash ensures Seen(a, w, h) == Seen(b, w, h) {
      SameSeen(a, b, w, h);
    }
    hide WithLegs, Seen, LegsOk;
    SameOutcome(WithLegs(EMPTY, a), WithLegs(EMPTY, b), a, b);
  }

  lemma SameOutcome(s: Stats, t: Stats, a: seq<Leg>, b: seq<Leg>)
    requires Paired(s, a) && Paired(t, b) && forall w: Which, h: TxHash :: Seen(a, w, h) == Seen(b, w, h)
    ensures s.open == t.open
    ensures forall l :: l in s.lines <==> l in t.lines
  {
    forall h ensures h in s.open <==> h in t.open {
      assert HalfSeen(a, h) <==> HalfSeen(b, h);
    }
    forall h | h in s.open ensures s.open[h] == t.open[h] {
    }
    forall l ensures l in s.lines <==> l in t.lines {
      assert l in s.lines ==> BothSeen(b, l.hash);
      assert l in t.lines ==> BothSeen(a, l.hash);
    }
  }

  // --------------------------------------------------------------------------- latencies

  ghost function TotalOf(m: map<int, int>): int { SetSum(m.Keys, (e: int) => CountOf(m, e)) }

  lemma BumpedTotal(m: map<int, int>, e: int, v: int)
    ensures TotalOf(Bumped(m, e, v)) == TotalOf(m) + v
  {
    var f, g := (x: int) => CountOf(m, x), (x: int) => CountOf(Bumped(m, e, v), x);
    assert Bumped(m, e, v).Keys == m.Keys + {e};
    SetSumWithout(m.Keys + {e}, g, e);
    SetSumAgree(m.Keys - {e}, g, f);
    if e in m { SetSumWithout(m.Keys, f, e); } else { assert m.Keys - {e} == m.Keys; }
    assert m.Keys + {e} - {e} == m.Keys - {e};
  }

  function Latency(l: Line): int {
    if l.CrossLine? then CommitOf(l.life.relay2) - l.life.create else 0
  }

  /** Over all epochs, the latencies of the two legs add up to final commit minus creation of every paired transaction. */
  lemma {:induction false} LatenciesAddUp(s: Stats, legs: seq<Leg>)
    ensures var r := WithLegs(s, legs);
            TotalOf(r.relay1Sum) + TotalOf(r.relay2Sum) - SeqSum(r.lines, Latency)
            == TotalOf(s.relay1Sum) + TotalOf(s.relay2Sum) - SeqSum(s.lines, Latency)
  {
    if legs != [] {
      var before, leg := WithLegs(s, legs[..|legs| - 1]), legs[|legs| - 1];
      LatenciesAddUp(s, legs[..|legs| - 1]);
      OneLegLatency(before, leg);
    }
  }

  lemma OneLegLatency(s: Stats, leg: Leg)
    ensures var r := WithLeg(s, leg);
            TotalOf(r.relay1Sum) + TotalOf(r.relay2Sum) - SeqSum(r.lines, Latency)
            == TotalOf(s.relay1Sum) + TotalOf(s.relay2Sum) - SeqSum(s.lines, Latency)
  {
    var h := leg.tx.hash;
    if h in s.open {
      var known := s.open[h];
      var life := if leg.which == First then known.(relay1 := Some(leg.times)) else known.(relay2 := Some(leg.times));
      BumpedTotal(s.relay1Sum, leg.epoch, CommitOf(life.relay1) - life.create);
      BumpedTotal(s.relay2Sum, leg.epoch, CommitOf(life.relay2) - CommitOf(life.relay1));
      SeqSumSnoc(s.lines, CrossLine(h, life), Latency);
    }
  }

  /** When the last leg completes a pair: its first and its second leg. */
  ghost function CompletedBy(most: seq<Leg>, last: Leg): Option<(Leg, Leg)> {
    match Seen(most, Other(last.which), last.tx.hash)
    case None => None
    case Some(o) => Some(if last.which == First then (last, o) else (o, last))
  }

  /** What the pairs completed in epoch e took from creation to the commit of the first leg. */
  ghost function FirstLegLatency(legs: seq<Leg>, e: int): int {
    if legs == [] then 0 else
    var most, last := legs[..|legs| - 1], legs[|legs| - 1];
    FirstLegLatency(most, e) +
    match CompletedBy(most, last)
    case None => 0
    case Some(pair) => if last.epoch == e then pair.0.times.commit - last.tx.create else 0
  }

  /** What the pairs completed in epoch e took from the commit of the first leg to that of the second. */
  ghost function SecondLegLatency(legs: seq<Leg>, e: int): int {
    if legs == [] then 0 else
    var most, last := legs[..|legs| - 1], legs[|legs| - 1];
    SecondLegLatency(most, e) +
    match CompletedBy(most, last)
    case None => 0
    case Some(pair) => if last.epoch == e then pair.1.times.commit - pair.0.times.commit else 0
  }

  lemma OneLegSums(s: Stats, legs: seq<Leg>, leg: Leg, e: int)
    requires Paired(s, legs) && LegsOk(legs + [leg])
    ensures var r, pair := WithLeg(s, leg), CompletedBy(legs, leg);
            var here := if pair.Some? && leg.epoch == e then 1 else 0;
            && CountOf(r.relay1Sum, e) == CountOf(s.relay1Sum, e) + (if here == 1 then pair.value.0.times.commit - leg.tx.create else 0)
            && CountOf(r.relay2Sum, e) == CountOf(s.relay2Sum, e) + (if here == 1 then pair.value.1.times.commit - pair.value.0.times.commit else 0)
  {
    var h := leg.tx.hash;
    NewLeg(legs, leg);
    assert h in s.open <==> HalfSeen(legs, h);
    if h in s.open { assert s.open[h] == OpenLife(legs, h); }
  }

  /** Each epoch's two latency sums are those of the pairs completed in it, leg by leg. */
  lemma {:induction false} SumsAreExact(legs: seq<Leg>, e: int)
    requires LegsOk(legs)
    ensures CountOf(WithLegs(EMPTY, legs).relay1Sum, e) == FirstLegLatency(legs, e)
    ensures CountOf(WithLegs(EMPTY, legs).relay2Sum, e) == SecondLegLatency(legs, e)
  {
    if legs != [] {
      var most, last := legs[..|legs| - 1], legs[|legs| - 1];
      assert legs == most + [last];
      NewLeg(most, last);
      SumsAreExact(most, e);
      PairingIsExact(most);
      hide LegsOk, Paired, WithLeg, CompletedBy;
      OneLegSums(WithLegs(EMPTY, most), most, last, e);
    }
  }

  // ------------------------------------------------------------- whole reports, inner transactions and all

  function HandledAll(reports: seq<BlockInfo>): Stats {
    if reports == [] then EMPTY else Handled(HandledAll(reports[..|reports| - 1]), reports[|reports| - 1])
  }

  function CountedAll(reports: seq<BlockInfo>): Epochs {
    if reports == [] then NO_EPOCHS else WithReport(CountedAll(reports[..|reports| - 1]), reports[|reports| - 1])
  }

  /** The legs of all reports in the order in which they are handled. */
  function LegsOfAll(reports: seq<BlockInfo>): seq<Leg> {
    if reports == [] then [] else
    var info := reports[|reports| - 1];
    LegsOfAll(reports[..|reports| - 1]) + LegsIn(info, First, info.r1) + LegsIn(info, Second, info.r2)
  }

  function IsCross(): Line -> bool { (l: Line) => l.CrossLine? }

  /** The lines of relayed transactions. */
  function CrossLines(s: Stats): seq<Line> { Pick(s.lines, IsCross()) }

  /** As far as relayed transactions go, the two records are the same. */
  ghost predicate SameCross(s: Stats, t: Stats) {
    && s.open == t.open && CrossLines(s) == CrossLines(t) && CrossLines(t) == t.lines
    && s.relay1Sum == t.relay1Sum && s.relay2Sum == t.relay2Sum
  }

  lemma CrossLeg(s: Stats, t: Stats, leg: Leg)
    requires SameCross(s, t)
    ensures SameCross(WithLeg(s, leg), WithLeg(t, leg))
  {
    var h := leg.tx.hash;
    if h in s.open {
      var line := WithLeg(s, leg).lines[|s.lines|];
      PickSnoc(s.lines, line, IsCross());
      PickSnoc(t.lines, line, IsCross());
    }
  }

  lemma {:induction false} CrossLegs(s: Stats, t: Stats, legs: seq<Leg>)
    requires SameCross(s, t)
    ensures SameCross(WithLegs(s, legs), WithLegs(t, legs))
  {
    if legs != [] {
      CrossLegs(s, t, legs[..|legs| - 1]);
      CrossLeg(WithLegs(s, legs[..|legs| - 1]), WithLegs(t, legs[..|legs| - 1]), legs[|legs| - 1]);
    }
  }

  /** An inner transaction leaves relayed ones alone exactly as long as no entry with its hash is open. */
  lemma {:induction false} InnersLeaveCross(s: Stats, info: BlockInfo, txs: seq<Reported>)
    ensures WithInners(s, info, txs).open == s.open <==> forall tx :: tx in txs ==> tx.hash !in s.open
    ensures WithInners(s, info, txs).open.Keys <= s.open.Keys
    ensures CrossLines(WithInners(s, info, txs)) == CrossLines(s)
    ensures WithInners(s, info, txs).relay1Sum == s.relay1Sum && WithInners(s, info, txs).relay2Sum == s.relay2Sum
  {
    if txs != [] {
      var most, last := txs[..|txs| - 1], txs[|txs| - 1];
      InnersLeaveCross(s, info, most);
      var mid := WithInners(s, info, most);
      PickSnoc(mid.lines, InnerLine(last.hash, last.create, info.times), IsCross());
      assert last in txs && txs == most + [last];
    }
  }

  lemma {:induction false} WithLegsAppend(s: Stats, a: seq<Leg>, b: seq<Leg>)
    ensures WithLegs(s, a + b) == WithLegs(WithLegs(s, a), b)
  {
    if b == [] {
      assert a + b == a;
    } else {
      assert (a + b)[..|a + b| - 1] == a + b[..|b| - 1];
      WithLegsAppend(s, a, b[..|b| - 1]);
    }
  }

  /** No inner transaction shares its hash with a relayed one. */
  ghost predicate InnersApart(reports: seq<BlockInfo>) {
    forall i, tx, leg :: 0 <= i < |reports| && tx in reports[i].inner && leg in LegsOfAll(reports) ==> tx.hash != leg.tx.hash
  }

  /** Only hashes of legs are ever open. */
  lemma {:induction false} OpenAreLegs(legs: seq<Leg>)
    ensures forall h :: h in WithLegs(EMPTY, legs).open ==> exists leg :: leg in legs && leg.tx.hash == h
  {
    if legs != [] {
      var most, last := legs[..|legs| - 1], legs[|legs| - 1];
      OpenAreLegs(most);
      forall h | h in WithLegs(EMPTY, legs).open ensures exists leg :: leg in legs && leg.tx.hash == h {
        if h in WithLegs(EMPTY, most).open {
          var leg :| leg in most && leg.tx.hash == h;
          assert leg in legs;
        } else {
          assert last in legs && last.tx.hash == h;
        }
      }
    }
  }

  lemma FewerReports(reports: seq<BlockInfo>)
    requires reports != [] && InnersApart(reports)
    ensures InnersApart(reports[..|reports| - 1])
    ensures forall tx, leg :: tx in reports[|reports| - 1].inner && leg in LegsOfAll(reports[..|reports| - 1]) ==> tx.hash != leg.tx.hash
  {
    var most := reports[..|reports| - 1];
    forall leg | leg in LegsOfAll(most) ensures leg in LegsOfAll(reports) {
    }
    forall i, tx, leg | 0 <= i < |most| && tx in most[i].inner && leg in LegsOfAll(most) ensures tx.hash != leg.tx.hash {
      assert most[i] == reports[i];
    }
  }

  lemma {:induction false} ReportsAreLegs(reports: seq<BlockInfo>)
    requires InnersApart(reports)
    ensures SameCross(HandledAll(reports), WithLegs(EMPTY, LegsOfAll(reports)))
  {
    if reports != [] {
      var most, info := reports[..|reports| - 1], reports[|reports| - 1];
      FewerReports(reports);
      ReportsAreLegs(most);
      var s, t := HandledAll(most), WithLegs(EMPTY, LegsOfAll(most));
      OpenAreLegs(LegsOfAll(most));
      InnersLeaveCross(s, info, info.inner);
      var a, b := LegsIn(info, First, info.r1), LegsIn(info, Second, info.r2);
      hide WithLeg, WithInners, CrossLines;
      CrossLegs(WithInners(s, info, info.inner), t, a);
      CrossLegs(WithLegs(WithInners(s, info, info.inner), a), WithLegs(t, a), b);
      WithLegsAppend(EMPTY, LegsOfAll(most), a);
      WithLegsAppend(EMPTY, LegsOfAll(most) + a, b);
    }
  }

  /**
   * Over whole reports, with inner transactions in between: one line for each hash seen on both legs, and open are the
   * half-seen ones, as long as no inner transaction has the hash of a relayed one.
   */
  lemma ReportsPairExactly(reports: seq<BlockInfo>)
    requires LegsOk(LegsOfAll(reports)) && InnersApart(reports)
    ensures var s := HandledAll(reports); Paired(s.(lines := CrossLines(s)), LegsOfAll(reports))
  {
    ReportsAreLegs(reports);
    PairingIsExact(LegsOfAll(reports));
  }

  /** An inner transaction with the hash of a half-seen one throws its entry away, and the pair is never completed. */
  lemma InnerClosesOpen(h: TxHash) returns (reports: seq<BlockInfo>)
    ensures LegsOk(LegsOfAll(reports)) && HalfSeen(LegsOfAll(reports), h) && h !in HandledAll(reports).open
  {
    var tx := Reported(h, 0);
    var first := BlockInfo(0, Times(0, 1), [], [tx], []);
    var second := BlockInfo(0, Times(1, 2), [tx], [], []);
    reports := [first, second];
    assert reports[..1] == [first] && [first][..0] == [];
    var leg := Leg(First, tx, Times(0, 1), 0);
    assert LegsIn(first, First, [tx]) == [leg];
    assert LegsOfAll([first]) == [leg] && LegsOfAll(reports) == [leg];
    assert Seen([leg], First, h) == Some(leg) && Seen([leg], Second, h).None?;
    var mid := WithLegs(EMPTY, [leg]);
    assert HandledAll([first]) == mid;
    InnersLeaveCross(mid, second, [tx]);
    assert WithInners(mid, second, [tx]).open == mid.open - {h} by { assert [tx][..0] == []; }
    assert HandledAll(reports) == WithInners(mid, second, [tx]);
  }

  /** In the epoch, first is the earliest proposal and last the latest commit. */
  ghost predicate IsSpan(reports: seq<BlockInfo>, e: int, first: int, last: int) {
    && (exists i :: 0 <= i < |reports| && reports[i].epoch == e && reports[i].times.propose == first)
    && (exists i :: 0 <= i < |reports| && reports[i].epoch == e && reports[i].times.commit == last)
    && (forall i :: 0 <= i < |reports| && reports[i].epoch == e ==> first <= reports[i].times.propose && reports[i].times.commit <= last)
  }

  ghost predicate HasEpoch(reports: seq<BlockInfo>, e: int) { exists i :: 0 <= i < |reports| && reports[i].epoch == e }

  lemma SpanGrows(reports: seq<BlockInfo>, info: BlockInfo, e: int, first: int, last: int)
    requires IsSpan(reports, e, first, last) || (!HasEpoch(reports, e) && info.epoch == e && first == info.times.propose && last == info.times.commit)
    ensures IsSpan(reports + [info], e, if info.epoch == e && info.times.propose < first then info.times.propose else first,
                   if info.epoch == e && info.times.commit > last then info.times.commit else last)
  {
    var more := reports + [info];
    if IsSpan(reports, e, first, last) {
      var i :| 0 <= i < |reports| && reports[i].epoch == e && reports[i].times.propose == first;
      var j :| 0 <= j < |reports| && reports[j].epoch == e && reports[j].times.commit == last;
      assert more[i] == reports[i] && more[j] == reports[j];
    }
    assert more[|reports|] == info;
    forall i | 0 <= i < |more| && more[i].epoch == e && i < |reports| ensures HasEpoch(reports, e) {
      assert reports[i].epoch == e;
    }
  }

  lemma HasEpochSnoc(most: seq<BlockInfo>, info: BlockInfo, e: int)
    ensures HasEpoch(most + [info], e) <==> HasEpoch(most, e) || info.epoch == e
  {
    var more := most + [info];
    assert more[|most|] == info;
    if HasEpoch(most, e) {
      var i :| 0 <= i < |most| && most[i].epoch == e;
      assert more[i].epoch == e;
    }
  }

  function InnersIn(e: int): BlockInfo -> int { (info: BlockInfo) => if info.epoch == e then |info.inner| else 0 }
  function Relay1In(e: int): BlockInfo -> int { (info: BlockInfo) => if info.epoch == e then |info.r1| else 0 }
  function Relay2In(e: int): BlockInfo -> int { (info: BlockInfo) => if info.epoch == e then |info.r2| else 0 }

  lemma {:induction false} CountsAreExact(reports: seq<BlockInfo>, e: int)
    ensures var es := CountedAll(reports);
            && CountOf(es.inner, e) == SeqSum(reports, InnersIn(e))
            && CountOf(es.relay1, e) == SeqSum(reports, Relay1In(e)) && CountOf(es.relay2, e) == SeqSum(reports, Relay2In(e))
  {
    if reports != [] {
      CountsAreExact(reports[..|reports| - 1], e);
    }
  }

  lemma {:induction false} SpansAreExact(reports: seq<BlockInfo>, e: int)
    ensures var es := CountedAll(reports);
            && (e in es.start <==> HasEpoch(reports, e)) && (e in es.start <==> e in es.end)
            && (e in es.start ==> IsSpan(reports, e, es.start[e], es.end[e]))
  {
    if reports != [] {
      var most, info := reports[..|reports| - 1], reports[|reports| - 1];
      SpansAreExact(most, e);
      var es := CountedAll(most);
      assert reports == most + [info];
      HasEpochSnoc(most, info, e);
      hide IsSpan, HasEpoch, Bumped;
      if e in es.start { SpanGrows(most, info, e, es.start[e], es.end[e]); }
      else if info.epoch == e { SpanGrows(most, info, e, info.times.propose, info.times.commit); }
    }
  }

  /** The times of an epoch are those of its earliest proposal and its latest commit, and its counts are complete. */
  lemma EpochsAreExact(reports: seq<BlockInfo>, e: int)
    ensures var es := CountedAll(reports);
            && (e in es.start <==> HasEpoch(reports, e)) && (e in es.start <==> e in es.end)
            && (e in es.start ==> IsSpan(reports, e, es.start[e], es.end[e]))
            && CountOf(es.inner, e) == SeqSum(reports, InnersIn(e))
            && CountOf(es.relay1, e) == SeqSum(reports, Relay1In(e)) && CountOf(es.relay2, e) == SeqSum(reports, Relay2In(e))
  {
    SpansAreExact(reports, e);
    CountsAreExact(reports, e);
  }

  // ------------------------------------------------------------------- sums over whole reports

  /** Over whole reports, each epoch's two latency sums are those of the pairs completed in it. */
  lemma ReportSumsAreExact(reports: seq<BlockInfo>, e: int)
    requires LegsOk(LegsOfAll(reports)) && InnersApart(reports)
    ensures CountOf(HandledAll(reports).relay1Sum, e) == FirstLegLatency(LegsOfAll(reports), e)
    ensures CountOf(HandledAll(reports).relay2Sum, e) == SecondLegLatency(LegsOfAll(reports), e)
  {
    ReportsAreLegs(reports);
    SumsAreExact(LegsOfAll(reports), e);
  }

  function InnerLatencyIn(e: int): BlockInfo -> int {
    (info: BlockInfo) => if info.epoch == e then SumOf(info.inner, info.times.commit) else 0
  }

  function SumOf(txs: seq<Reported>, commit: int): int {
    if txs == [] then 0 else SumOf(txs[..|txs| - 1], commit) + (commit - txs[|txs| - 1].create)
  }

  function InnerLinesOf(times: Times, txs: seq<Reported>): seq<Line> {
    seq(|txs|, i requires 0 <= i < |txs| => InnerLine(txs[i].hash, txs[i].create, times))
  }

  function InnerLinesOfAll(reports: seq<BlockInfo>): seq<Line> {
    if reports == [] then [] else
    InnerLinesOfAll(reports[..|reports| - 1]) + InnerLinesOf(reports[|reports| - 1].times, reports[|reports| - 1].inner)
  }

  function IsInnerLine(): Line -> bool { (l: Line) => l.InnerLine? }

  lemma InnerRecorded(s: Stats, info: BlockInfo, tx: Reported, e: int)
    ensures var r := WithInner(s, info, tx);
            && CountOf(r.innerSum, e) == CountOf(s.innerSum, e) + (if info.epoch == e then info.times.commit - tx.create else 0)
            && Pick(r.lines, IsInnerLine()) == Pick(s.lines, IsInnerLine()) + [InnerLine(tx.hash, tx.create, info.times)]
  {
    PickSnoc(s.lines, InnerLine(tx.hash, tx.create, info.times), IsInnerLine());
    hide Pick;
  }

  lemma {:induction false} InnersRecorded(s: Stats, info: BlockInfo, txs: seq<Reported>, e: int)
    ensures var r := WithInners(s, info, txs);
            && CountOf(r.innerSum, e) == CountOf(s.innerSum, e) + (if info.epoch == e then SumOf(txs, info.times.commit) else 0)
            && Pick(r.lines, IsInnerLine()) == Pick(s.lines, IsInnerLine()) + InnerLinesOf(info.times, txs)
  {
    if txs != [] {
      var most, last := txs[..|txs| - 1], txs[|txs| - 1];
      InnersRecorded(s, info, most, e);
      hide WithInner, Pick, CountOf;
      InnerRecorded(WithInners(s, info, most), info, last, e);
      assert InnerLinesOf(info.times, txs) == InnerLinesOf(info.times, most) + [InnerLine(last.hash, last.create, info.times)];
    }
  }

  lemma {:induction false} LegsLeaveInners(s: Stats, legs: seq<Leg>)
    ensures var r := WithLegs(s, legs); r.innerSum == s.innerSum && Pick(r.lines, IsInnerLine()) == Pick(s.lines, IsInnerLine())
  {
    if legs != [] {
      var before, leg := WithLegs(s, legs[..|legs| - 1]), legs[|legs| - 1];
      LegsLeaveInners(s, legs[..|legs| - 1]);
      if leg.tx.hash in before.open { PickSnoc(before.lines, WithLeg(before, leg).lines[|before.lines|], IsInnerLine()); }
    }
  }

  /**
   * Inner transactions, whatever the relayed ones: one line for each, in order, with its creation and its block's times,
   * and each epoch's sum is commit minus creation over its inner transactions.
   */
  lemma {:induction false} InnersAreExact(reports: seq<BlockInfo>, e: int)
    ensures var s := HandledAll(reports);
            && CountOf(s.innerSum, e) == SeqSum(reports, InnerLatencyIn(e))
            && Pick(s.lines, IsInnerLine()) == InnerLinesOfAll(reports)
  {
    if reports != [] {
      var most, info := reports[..|reports| - 1], reports[|reports| - 1];
      InnersAreExact(most, e);
      InnersRecorded(HandledAll(most), info, info.inner, e);
      var mid := WithInners(HandledAll(most), info, info.inner);
      hide WithLegs, WithInners;
      LegsLeaveInners(mid, LegsIn(info, First, info.r1));
      LegsLeaveInners(WithLegs(mid, LegsIn(info, First, info.r1)), LegsIn(info, Second, info.r2));
    }
  }
}
