/** Compiling trace records into a transaction plan. */
module AgentPlan {
  import opened Prelude
  import opened TextFormats
  import opened Registry

  const UINT64_LIMIT: nat := 0x1_0000_0000_0000_0000

  datatype ActionKind = Join | Leave | Pay | RawTx | Unsupported(name: string)

  /** A plain transfer as the trace writes it. */
  datatype RawSpec = RawSpec(sender: string, recipient: string, value: string)

  datatype Record = Record(
    action: ActionKind, agentID: string, target: string, amount: nat, ts: int, requestID: string, paramsHash: string, raw: RawSpec)

  datatype PlanTx = PlanTx(sender: Address, recipient: Address, value: nat, nonce: nat, data: seq<byte>, time: int)

  /** An action with the transactions it compiled into. */
  datatype Link = Link(record: Record, txs: seq<PlanTx>)

  datatype Metric = Metric(kind: string, ts: int, requestID: string, value: nat)

  datatype Operation = Register | Revoke

  /** What is given from outside: addresses of agents, the packing of contract calls, the contract address. */
  datatype Env = Env(address: string -> Address, pack: (Operation, string, string) -> seq<byte>, contract: string)

  datatype Plan = Plan(agents: Agents, nonces: map<Address, nat>, txs: seq<PlanTx>, links: seq<Link>, metrics: seq<Metric>)

  // -------------------------------------------------------------------------- parsing

  /** An optional sign, then decimal digits. */
  function IntValue(s: string): Option<int> {
    if |s| > 0 && s[0] == '+' then (match DecimalValue(s[1..]) case None => None case Some(n) => Some(n))
    else if |s| > 0 && s[0] == '-' then (match DecimalValue(s[1..]) case None => None case Some(n) => var v: int := n; Some(-v))
    else match DecimalValue(s) case None => None case Some(n) => Some(n)
  }

  function RawTxAddr(s: string): Option<Address> {
    match Hex2Bytes(s)
    case None => None
    case Some(b) => if |b| != 20 then None else Some(b)
  }

  // ------------------------------------------------------------------------- compiling

  function NonceOf(p: Plan, a: Address): nat { if a in p.nonces then p.nonces[a] else 0 }

  /** One transaction with the sender's next nonce, linked to the current action. */
  function Appended(p: Plan, from: Address, to: Address, amount: nat, data: seq<byte>, ts: int): Plan
    requires p.links != []
  {
    var tx := PlanTx(from, to, amount, NonceOf(p, from), data, ts);
    var last := p.links[|p.links| - 1];
    p.(nonces := p.nonces[from := NonceOf(p, from) + 1], txs := p.txs + [tx],
       links := p.links[..|p.links| - 1] + [last.(txs := last.txs + [tx])])
  }

  function WithIdentity(env: Env, p: Plan, r: Record, agent: Agent, op: Operation): Option<Plan>
    requires p.links != []
  {
    match (DidAddress(agent.did), Hex2Addr(env.contract))
    case (Some(from), Some(to)) =>
      var q := Appended(p, from, to, 0, env.pack(op, agent.did, r.paramsHash), r.ts);
      Some(q.(metrics := q.metrics + [Metric(if op == Register then "did_register" else "did_revoke", r.ts, r.requestID, r.amount)]))
    case _ => None
  }

  function PayStep(p: Plan, r: Record): Option<Plan>
    requires p.links != []
  {
    if !IsActive(p.agents, r.agentID) || !IsActive(p.agents, r.target) then None else
    match (DidAddress(p.agents[r.agentID].did), DidAddress(p.agents[r.target].did))
    case (Some(from), Some(to)) =>
      var q := Appended(p, from, to, r.amount, [], r.ts);
      Some(q.(metrics := q.metrics + [Metric("pay_onchain", r.ts, r.requestID, r.amount)]))
    case _ => None
  }

  function RawStep(p: Plan, r: Record): Option<Plan>
    requires p.links != []
  {
    match (RawTxAddr(r.raw.sender), RawTxAddr(r.raw.recipient), IntValue(r.raw.value))
    case (Some(from), Some(to), Some(v)) =>
      if !(0 <= v < UINT64_LIMIT) then None else
      var q := Appended(p, from, to, v, [], r.ts);
      Some(q.(metrics := q.metrics + [Metric("raw_tx", r.ts, "", v)]))
    case _ => None
  }

  /** The action on a plan that already has its link. */
  function Step(env: Env, p: Plan, r: Record): Option<Plan>
    requires p.links != []
  {
    match r.action
    case Join =>
      (match Joined(p.agents, env.address, r.agentID)
       case None => None
       case Some((agents, agent, changed)) =>
         if changed then WithIdentity(env, p.(agents := agents), r, agent, Register) else Some(p.(agents := agents)))
    case Leave =>
      (match Left(p.agents, r.agentID)
       case None => None
       case Some((agents, agent)) => WithIdentity(env, p.(agents := agents), r, agent, Revoke))
    case Pay => PayStep(p, r)
    case RawTx => RawStep(p, r)
    case Unsupported(_) => None
  }

  function Processed(env: Env, p: Plan, r: Record): Option<Plan> {
    Step(env, p.(links := p.links + [Link(r, [])]), r)
  }

  function Compiled(env: Env, p: Plan, records: seq<Record>): Option<Plan> {
    if records == [] then Some(p) else
    match Compiled(env, p, records[..|records| - 1])
    case None => None
    case Some(q) => Processed(env, q, records[|records| - 1])
  }

  function EmptyPlan(agents: Agents): Plan { Plan(agents, map[], [], [], []) }

  // ----------------------------------------------------------------------- the compiler

  class AgentSupervisor {
    const env: Env
    const registry: Registry
    var nonces: map<Address, nat>
    var metrics: seq<Metric>
    var txs: seq<PlanTx>
    var links: seq<Link>

    constructor (env: Env, registry: Registry)
      ensures this.env == env && this.registry == registry && View() == EmptyPlan(registry.agents)
    {
      this.env, this.registry := env, registry;
      nonces, metrics, txs, links := map[], [], [], [];
    }

    ghost function View(): Plan
      reads this, registry
    {
      Plan(registry.agents, nonces, txs, links, metrics)
    }

    method Process(records: seq<Record>) returns (ok: bool)
      requires registry.address == env.address
      modifies this, registry
      ensures ok <==> Compiled(env, old(View()), records).Some?
      ensures ok ==> View() == Compiled(env, old(View()), records).value
    {
      ghost var start := View();
      for i := 0 to |records|
        invariant Compiled(env, start, records[..i]) == Some(View())
      {
        assert records[..i + 1][..i] == records[..i];
        var done := ProcessOne(records[i]);
        if !done {
          CompileStops(env, start, records, i + 1);
          return false;
        }
      }
      assert records[..|records|] == records;
      return true;
    }

    method ProcessOne(r: Record) returns (ok: bool)
      requires registry.address == env.address
      modifies this, registry
      ensures ok <==> Processed(env, old(View()), r).Some?
      ensures ok ==> View() == Processed(env, old(View()), r).value
    {
      links := links + [Link(r, [])];
      match r.action {
        case Join =>
          var j := registry.Join(r.agentID);
          if j.None? { return false; }
          if !j.value.1 { return true; }
          ok := ProcessIdentity(r, j.value.0, Register);
        case Leave =>
          var l := registry.Leave(r.agentID);
          if l.None? { return false; }
          ok := ProcessIdentity(r, l.value, Revoke);
        case Pay => ok := ProcessPay(r);
        case RawTx => ok := ProcessRawTx(r);
        case Unsupported(_) => ok := false;
      }
    }

    method ProcessIdentity(r: Record, agent: Agent, op: Operation) returns (ok: bool)
      requires links != []
      modifies this
      ensures ok <==> WithIdentity(env, old(View()), r, agent, op).Some?
      ensures ok ==> View() == WithIdentity(env, old(View()), r, agent, op).value
    {
      var from := DidAddress(agent.did);
      if from.None? { return false; }
      var to := Hex2Addr(env.contract);
      if to.None? { return false; }
      AppendTx(from.value, to.value, 0, env.pack(op, agent.did, r.paramsHash), r.ts);
      metrics := metrics + [Metric(if op == Register then "did_register" else "did_revoke", r.ts, r.requestID, r.amount)];
      return true;
    }

    method ProcessPay(r: Record) returns (ok: bool)
      requires links != []
      modifies this
      ensures ok <==> PayStep(old(View()), r).Some?
      ensures ok ==> View() == PayStep(old(View()), r).value
    {
      var fromAgent := registry.Active(r.agentID);
      if fromAgent.None? { return false; }
      var toAgent := registry.Active(r.target);
      if toAgent.None? { return false; }
      var from := DidAddress(fromAgent.value.did);
      if from.None? { return false; }
      var to := DidAddress(toAgent.value.did);
      if to.None? { return false; }
      AppendTx(from.value, to.value, r.amount, [], r.ts);
      metrics := metrics + [Metric("pay_onchain", r.ts, r.requestID, r.amount)];
      return true;
    }

    method ProcessRawTx(r: Record) returns (ok: bool)
      requires links != []
      modifies this
      ensures ok <==> RawStep(old(View()), r).Some?
      ensures ok ==> View() == RawStep(old(View()), r).value
    {
      var from := RawTxAddr(r.raw.sender);
      if from.None? { return false; }
      var to := RawTxAddr(r.raw.recipient);
      if to.None? { return false; }
      var value := IntValue(r.raw.value);
      if value.None? { return false; }
      if value.value < 0 || value.value >= UINT64_LIMIT { return false; }
      AppendTx(from.value, to.value, value.value, [], r.ts);
      metrics := metrics + [Metric("raw_tx", r.ts, "", value.value)];
      return true;
    }

    /** Append a transaction and link it to the current action. */
    method AppendTx(from: Address, to: Address, amount: nat, data: seq<byte>, ts: int)
      requires links != []
      modifies this
      ensures View() == Appended(old(View()), from, to, amount, data, ts)
    {
      var nonce := if from in nonces then nonces[from] else 0;
      nonces := nonces[from := nonce + 1];
      var tx := PlanTx(from, to, amount, nonce, data, ts);
      txs := txs + [tx];
      var last := links[|links| - 1];
      links := links[..|links| - 1] + [last.(txs := last.txs + [tx])];
    }
  }

  lemma {:induction false} CompileStops(env: Env, p: Plan, records: seq<Record>, n: nat)
    requires n <= |records| && Compiled(env, p, records[..n]).None?
    ensures Compiled(env, p, records).None?
  {
    if n == |records| {
      assert records[..n] == records;
    } else {
      assert records[..|records| - 1][..n] == records[..n];
      CompileStops(env, p, records[..|records| - 1], n);
    }
  }

  // -------------------------------------------------------------------- what a plan keeps

  function SentBy(txs: seq<PlanTx>, a: Address): nat {
    if txs == [] then 0 else SentBy(txs[..|txs| - 1], a) + if txs[|txs| - 1].sender == a then 1 else 0
  }

  function LinkedTxs(links: seq<Link>): seq<PlanTx> {
    if links == [] then [] else LinkedTxs(links[..|links| - 1]) + links[|links| - 1].txs
  }

  /** Each sender's transactions are numbered 0, 1, 2, ... */
  ghost predicate Numbered(txs: seq<PlanTx>, nonces: map<Address, nat>) {
    && (forall i :: 0 <= i < |txs| ==> txs[i].nonce == SentBy(txs[..i], txs[i].sender))
    && (forall a: Address :: (if a in nonces then nonces[a] else 0) == SentBy(txs, a))
  }

  /** The links hold all transactions in order, at most one each. */
  ghost predicate Linked(links: seq<Link>, txs: seq<PlanTx>) {
    LinkedTxs(links) == txs && forall k :: 0 <= k < |links| ==> |links[k].txs| <= 1
  }

  ghost predicate PlanOk(p: Plan) { Numbered(p.txs, p.nonces) && Linked(p.links, p.txs) }

  lemma SentByOneMore(txs: seq<PlanTx>, tx: PlanTx, a: Address)
    ensures SentBy(txs + [tx], a) == SentBy(txs, a) + if tx.sender == a then 1 else 0
  {
    assert (txs + [tx])[..|txs|] == txs;
  }

  lemma NumberedOneMore(txs: seq<PlanTx>, nonces: map<Address, nat>, tx: PlanTx)
    requires Numbered(txs, nonces) && tx.nonce == SentBy(txs, tx.sender)
    ensures Numbered(txs + [tx], nonces[tx.sender := tx.nonce + 1])
  {
    hide SentBy;
    var more := txs + [tx];
    forall i | 0 <= i < |more| ensures more[i].nonce == SentBy(more[..i], more[i].sender) {
      assert more[..i] == txs[..i];
      if i == |txs| { assert txs[..i] == txs; }
    }
    forall a: Address ensures (if a in nonces[tx.sender := tx.nonce + 1] then nonces[tx.sender := tx.nonce + 1][a] else 0) == SentBy(more, a) {
      SentByOneMore(txs, tx, a);
    }
  }

  lemma LinkedOneMore(links: seq<Link>, txs: seq<PlanTx>, tx: PlanTx)
    requires Linked(links, txs) && links != [] && links[|links| - 1].txs == []
    ensures Linked(links[..|links| - 1] + [links[|links| - 1].(txs := [tx])], txs + [tx])
  {
    var most := links[..|links| - 1];
    var more := most + [links[|links| - 1].(txs := [tx])];
    assert more[..|more| - 1] == most;
  }

  lemma AppendedOk(p: Plan, from: Address, to: Address, amount: nat, data: seq<byte>, ts: int)
    requires PlanOk(p) && p.links != [] && p.links[|p.links| - 1].txs == []
    ensures PlanOk(Appended(p, from, to, amount, data, ts))
  {
    var tx := PlanTx(from, to, amount, NonceOf(p, from), data, ts);
    NumberedOneMore(p.txs, p.nonces, tx);
    LinkedOneMore(p.links, p.txs, tx);
    hide Numbered, Linked;
    assert [] + [tx] == [tx];
  }

  /** Whatever the action, at most one transaction is appended, to the plan and to the new link. */
  lemma StepOk(env: Env, p: Plan, r: Record)
    requires PlanOk(p) && p.links != [] && p.links[|p.links| - 1].txs == [] && Step(env, p, r).Some?
    ensures PlanOk(Step(env, p, r).value) && |Step(env, p, r).value.links| == |p.links|
  {
    hide Numbered, Linked, DidAddress, Hex2Addr, Hex2Bytes, IntValue, RawTxAddr, Joined, Left;
    var s := Step(env, p, r).value;
    if |s.txs| > |p.txs| {
      var tx := s.txs[|p.txs|];
      AppendedOk(p, tx.sender, tx.recipient, tx.value, tx.data, tx.time);
    }
  }

  lemma LinkedNothing(links: seq<Link>, txs: seq<PlanTx>, r: Record)
    requires Linked(links, txs)
    ensures Linked(links + [Link(r, [])], txs)
  {
    assert (links + [Link(r, [])])[..|links|] == links;
  }

  /** The plan numbers every sender's transactions consecutively, across identity, payment and raw actions. */
  lemma {:induction false} PlanNumbersSenders(env: Env, agents: Agents, records: seq<Record>)
    requires Compiled(env, EmptyPlan(agents), records).Some?
    ensures PlanOk(Compiled(env, EmptyPlan(agents), records).value)
    ensures |Compiled(env, EmptyPlan(agents), records).value.links| == |records|
  {
    if records != [] {
      var most, r := records[..|records| - 1], records[|records| - 1];
      PlanNumbersSenders(env, agents, most);
      var p := Compiled(env, EmptyPlan(agents), most).value;
      LinkedNothing(p.links, p.txs, r);
      hide Step, Numbered, Linked;
      StepOk(env, p.(links := p.links + [Link(r, [])]), r);
    }
  }
}
