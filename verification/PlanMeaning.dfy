/** What a compiled plan contains: for every record of the trace, the transaction it stands for. */
module PlanMeaning {
  import opened Prelude
  import opened TextFormats
  import R = Registry
  import opened AgentPlan

  /** Every known agent has the identity that was allocated to its name; so it is from an empty registry on. */
  ghost predicate Allocated(env: Env, agents: R.Agents) {
    forall id :: id in agents ==> agents[id].agentID == id && agents[id].did == R.AllocatedDID(env.address, id)
  }

  /** What one record is to plan, given who is known and active before it. */
  ghost predicate IsPlanned(env: Env, agents: R.Agents, r: Record, txs: seq<PlanTx>) {
    match r.action
    case Pay =>
      && R.IsActive(agents, r.agentID) && R.IsActive(agents, r.target) && |txs| == 1
      && txs[0].sender == env.address(r.agentID) && txs[0].recipient == env.address(r.target)
      && txs[0].value == r.amount && txs[0].data == [] && txs[0].time == r.ts
    case RawTx =>
      && |txs| == 1 && txs[0].value < UINT64_LIMIT
      && RawTxAddr(r.raw.sender) == Some(txs[0].sender) && RawTxAddr(r.raw.recipient) == Some(txs[0].recipient)
      && IntValue(r.raw.value) == Some(txs[0].value) && txs[0].data == [] && txs[0].time == r.ts
    case Join => r.agentID != "" && if R.IsActive(agents, r.agentID) then txs == [] else IsCall(env, r, Register, txs)
    case Leave => R.IsActive(agents, r.agentID) && IsCall(env, r, Revoke, txs)
    case Unsupported(_) => false
  }

  /** One call of the identity contract by the agent, about its own identity. */
  ghost predicate IsCall(env: Env, r: Record, op: Operation, txs: seq<PlanTx>) {
    && |txs| == 1 && txs[0].sender == env.address(r.agentID) && Hex2Addr(env.contract) == Some(txs[0].recipient)
    && txs[0].value == 0 && txs[0].data == env.pack(op, R.AllocatedDID(env.address, r.agentID), r.paramsHash) && txs[0].time == r.ts
  }

  /** One measurement for each planned transaction. */
  ghost predicate IsMeasured(r: Record, txs: seq<PlanTx>, ms: seq<Metric>) {
    |ms| == |txs| &&
    (txs != [] ==>
       ms[0] == match r.action
                case Pay => Metric("pay_onchain", r.ts, r.requestID, r.amount)
                case RawTx => Metric("raw_tx", r.ts, "", txs[0].value)
                case Join => Metric("did_register", r.ts, r.requestID, r.amount)
                case Leave => Metric("did_revoke", r.ts, r.requestID, r.amount)
                case Unsupported(_) => ms[0])
  }

  /** The plan grows by one link for the record, with what the record is to plan. */
  ghost predicate GrowsBy(env: Env, p: Plan, r: Record, s: Plan) {
    && |s.links| == |p.links| + 1 && s.links[..|p.links|] == p.links
    && var link := s.links[|p.links|];
       && link.record == r && s.txs == p.txs + link.txs && IsPlanned(env, p.agents, r, link.txs)
       && |s.metrics| >= |p.metrics| && s.metrics[..|p.metrics|] == p.metrics && IsMeasured(r, link.txs, s.metrics[|p.metrics|..])
  }

  lemma PaymentGrows(env: Env, p: Plan, r: Record)
    requires Allocated(env, p.agents) && r.action == Pay && Processed(env, p, r).Some?
    ensures GrowsBy(env, p, r, Processed(env, p, r).value) && Processed(env, p, r).value.agents == p.agents
  {
    R.AllocatedAddress(env.address, r.agentID);
    R.AllocatedAddress(env.address, r.target);
    hide R.DidAddress, R.AllocatedDID;
  }

  lemma RawGrows(env: Env, p: Plan, r: Record)
    requires r.action == RawTx && Processed(env, p, r).Some?
    ensures GrowsBy(env, p, r, Processed(env, p, r).value) && Processed(env, p, r).value.agents == p.agents
  {
    hide RawTxAddr, IntValue;
  }

  lemma JoinGrows(env: Env, p: Plan, r: Record)
    requires Allocated(env, p.agents) && r.action == Join && Processed(env, p, r).Some?
    ensures var s := Processed(env, p, r).value;
            GrowsBy(env, p, r, s) && Allocated(env, s.agents) && s.agents == R.Done(p.agents, env.address, R.Joins(r.agentID))
  {
    R.AllocatedAddress(env.address, r.agentID);
    hide R.DidAddress, R.AllocatedDID, Hex2Addr;
  }

  lemma LeaveGrows(env: Env, p: Plan, r: Record)
    requires Allocated(env, p.agents) && r.action == Leave && Processed(env, p, r).Some?
    ensures var s := Processed(env, p, r).value;
            GrowsBy(env, p, r, s) && Allocated(env, s.agents) && s.agents == R.Done(p.agents, env.address, R.Leaves(r.agentID))
  {
    R.AllocatedAddress(env.address, r.agentID);
    hide R.DidAddress, R.AllocatedDID, Hex2Addr;
  }

  /** The joins and leaves of a trace. */
  function IdentityOps(records: seq<Record>): seq<R.Operation> {
    if records == [] then [] else
    var most, r := IdentityOps(records[..|records| - 1]), records[|records| - 1];
    if r.action == Join then most + [R.Joins(r.agentID)] else if r.action == Leave then most + [R.Leaves(r.agentID)] else most
  }

  lemma Grows(env: Env, p: Plan, r: Record)
    requires Allocated(env, p.agents) && Processed(env, p, r).Some?
    ensures GrowsBy(env, p, r, Processed(env, p, r).value) && Allocated(env, Processed(env, p, r).value.agents)
  {
    hide GrowsBy;
    match r.action
    case Pay => PaymentGrows(env, p, r);
    case RawTx => RawGrows(env, p, r);
    case Join => JoinGrows(env, p, r);
    case Leave => LeaveGrows(env, p, r);
    case Unsupported(_) => assert Processed(env, p, r).None?;
  }

  lemma {:induction false} CompiledGrows(env: Env, agents: R.Agents, records: seq<Record>)
    requires Allocated(env, agents) && Compiled(env, EmptyPlan(agents), records).Some?
    ensures var p := Compiled(env, EmptyPlan(agents), records).value; Allocated(env, p.agents) && |p.links| == |records|
  {
    if records != [] {
      CompiledGrows(env, agents, records[..|records| - 1]);
      hide Processed;
      Grows(env, Compiled(env, EmptyPlan(agents), records[..|records| - 1]).value, records[|records| - 1]);
    }
  }

  /** The k-th link of the plan stands for record r, and its transaction and measurement come after those before it. */
  ghost predicate StandsFor(env: Env, p: Plan, before: Plan, r: Record, k: nat) {
    && k < |p.links| && p.links[k].record == r && IsPlanned(env, before.agents, r, p.links[k].txs)
    && before.txs + p.links[k].txs <= p.txs
    && |before.metrics| + |p.links[k].txs| <= |p.metrics|
    && IsMeasured(r, p.links[k].txs, p.metrics[|before.metrics|..|before.metrics| + |p.links[k].txs|])
  }

  lemma SliceOfPrefix<T>(s: seq<T>, t: seq<T>, lo: nat, hi: nat)
    requires lo <= hi <= |s| <= |t| && t[..|s|] == s
    ensures t[lo..hi] == s[lo..hi]
  {
    assert t[..|s|][lo..hi] == t[lo..hi];
  }

  lemma StandsLater(env: Env, q: Plan, r: Record, p: Plan, before: Plan, x: Record, k: nat)
    requires GrowsBy(env, q, r, p) && StandsFor(env, q, before, x, k)
    ensures StandsFor(env, p, before, x, k)
  {
    hide IsPlanned, IsMeasured;
    assert p.links[k] == p.links[..|q.links|][k];
    var lo, hi := |before.metrics|, |before.metrics| + |q.links[k].txs|;
    SliceOfPrefix(q.metrics, p.metrics, lo, hi);
    assert q.txs <= p.txs;
  }

  lemma StandsNow(env: Env, q: Plan, r: Record, p: Plan)
    requires GrowsBy(env, q, r, p)
    ensures StandsFor(env, p, q, r, |q.links|)
  {
    hide IsPlanned;
    var link := p.links[|q.links|];
    assert p.metrics[|q.metrics|..|q.metrics| + |link.txs|] == p.metrics[|q.metrics|..];
  }

  /**
   * The plan is the trace, record by record: its k-th link is that of the k-th record, and holds the transaction that
   * record stands for, given who was active when it came. A payment goes from the agent's address to the target's, with
   * the amount and no data.
   */
  lemma {:induction false} PlansTheTrace(env: Env, agents: R.Agents, records: seq<Record>, k: nat)
    requires Allocated(env, agents) && Compiled(env, EmptyPlan(agents), records).Some? && k < |records|
    ensures Compiled(env, EmptyPlan(agents), records[..k]).Some?
    ensures |Compiled(env, EmptyPlan(agents), records).value.links| == |records|
    ensures StandsFor(env, Compiled(env, EmptyPlan(agents), records).value, Compiled(env, EmptyPlan(agents), records[..k]).value, records[k], k)
    decreases |records|
  {
    var most, r := records[..|records| - 1], records[|records| - 1];
    var q := Compiled(env, EmptyPlan(agents), most).value;
    CompiledGrows(env, agents, most);
    CompiledGrows(env, agents, records);
    hide Processed, StandsFor, GrowsBy;
    Grows(env, q, r);
    if k < |most| {
      PlansTheTrace(env, agents, most, k);
      assert most[..k] == records[..k];
      StandsLater(env, q, r, Compiled(env, EmptyPlan(agents), records).value, Compiled(env, EmptyPlan(agents), records[..k]).value, records[k], k);
    } else {
      assert records[..k] == most;
      StandsNow(env, q, r, Compiled(env, EmptyPlan(agents), records).value);
    }
  }

  /** Who is active after a compiled trace: from an empty registry, exactly who has joined and not left since. */
  lemma {:induction false} AgentsAreJoined(env: Env, records: seq<Record>, agentID: string)
    requires Compiled(env, EmptyPlan(map[]), records).Some?
    ensures Compiled(env, EmptyPlan(map[]), records).value.agents == R.DoneAll(env.address, IdentityOps(records))
    ensures R.IsActive(Compiled(env, EmptyPlan(map[]), records).value.agents, agentID) <==>
            agentID != "" && R.JoinedLast(IdentityOps(records), agentID)
  {
    if records != [] {
      var most, r := records[..|records| - 1], records[|records| - 1];
      AgentsAreJoined(env, most, agentID);
      CompiledGrows(env, map[], most);
      var q := Compiled(env, EmptyPlan(map[]), most).value;
      hide Processed, GrowsBy, R.Done;
      match r.action
      case Pay => PaymentGrows(env, q, r);
      case RawTx => RawGrows(env, q, r);
      case Join =>
        JoinGrows(env, q, r);
        assert (IdentityOps(most) + [R.Joins(r.agentID)])[..|IdentityOps(most)|] == IdentityOps(most);
      case Leave =>
        LeaveGrows(env, q, r);
        assert (IdentityOps(most) + [R.Leaves(r.agentID)])[..|IdentityOps(most)|] == IdentityOps(most);
      case Unsupported(_) => Grows(env, q, r);
    }
    R.ActiveExactlyWhen(env.address, IdentityOps(records), agentID);
  }

  // ------------------------------------------------------------------------------- money

  /** What the payments of one link take from an address, less what they bring it. */
  function LinkOutflow(a: Address): Link -> int {
    (link: Link) =>
      if link.record.action != Pay || |link.txs| != 1 then 0 else
      (if link.txs[0].sender == a then link.txs[0].value else 0) - (if link.txs[0].recipient == a then link.txs[0].value else 0)
  }

  /** What a record of the trace takes from an agent, less what it brings it. */
  function RecordOutflow(agentID: string): Record -> int {
    (r: Record) =>
      if r.action != Pay then 0 else (if r.agentID == agentID then r.amount else 0) - (if r.target == agentID then r.amount else 0)
  }

  /** Nobody else has the agent's address. */
  ghost predicate HasOwnAddress(env: Env, agentID: string) {
    forall x: string :: env.address(x) == env.address(agentID) ==> x == agentID
  }

  lemma OutflowIs(env: Env, agents: R.Agents, link: Link, agentID: string)
    requires HasOwnAddress(env, agentID) && IsPlanned(env, agents, link.record, link.txs)
    ensures LinkOutflow(env.address(agentID))(link) == RecordOutflow(agentID)(link.record)
  {
    var r := link.record;
    assert env.address(r.agentID) == env.address(agentID) <==> r.agentID == agentID;
    assert env.address(r.target) == env.address(agentID) <==> r.target == agentID;
    hide HasOwnAddress;
  }

  lemma OneMoreOutflow(env: Env, q: Plan, r: Record, p: Plan, agentID: string)
    requires GrowsBy(env, q, r, p) && HasOwnAddress(env, agentID)
    ensures SeqSum(p.links, LinkOutflow(env.address(agentID))) == SeqSum(q.links, LinkOutflow(env.address(agentID))) + RecordOutflow(agentID)(r)
  {
    var link := p.links[|q.links|];
    OutflowIs(env, q.agents, link, agentID);
    hide *;
    assert p.links == q.links + [link];
    SeqSumSnoc(q.links, link, LinkOutflow(env.address(agentID)));
  }

  /** What an agent pays in the plan, less what it is paid, is what it pays and is paid in the trace. */
  lemma {:induction false} PaymentsBalance(env: Env, agents: R.Agents, records: seq<Record>, agentID: string)
    requires Allocated(env, agents) && Compiled(env, EmptyPlan(agents), records).Some? && HasOwnAddress(env, agentID)
    ensures SeqSum(Compiled(env, EmptyPlan(agents), records).value.links, LinkOutflow(env.address(agentID)))
            == SeqSum(records, RecordOutflow(agentID))
  {
    hide HasOwnAddress, Processed, GrowsBy, LinkOutflow, RecordOutflow;
    if records != [] {
      var most, r := records[..|records| - 1], records[|records| - 1];
      PaymentsBalance(env, agents, most, agentID);
      CompiledGrows(env, agents, most);
      var q := Compiled(env, EmptyPlan(agents), most).value;
      Grows(env, q, r);
      OneMoreOutflow(env, q, r, Compiled(env, EmptyPlan(agents), records).value, agentID);
      assert records == most + [r];
      SeqSumSnoc(most, r, RecordOutflow(agentID));
    }
  }
}
