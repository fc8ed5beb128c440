/** The payment-trace generator, for every choice its random numbers can make. */
module TraceGen {
  import opened Prelude
  import opened TextFormats
  import opened Registry
  import opened AgentPlan

  const MIN_ACTIVE := 10

  function Name(i: nat): (s: string)
    ensures s != ""
  {
    "agent-" + PadLeft(Decimal(i), 3)
  }

  lemma NamesDiffer(i: nat, j: nat)
    requires Name(i) == Name(j)
    ensures i == j
  {
    assert Name(i)[6..] == PadLeft(Decimal(i), 3) && Name(j)[6..] == PadLeft(Decimal(j), 3);
    PaddedIsInjective(i, j, 3);
  }

  ghost function Names(n: nat): set<string> { if n == 0 then {} else Names(n - 1) + {Name(n - 1)} }

  lemma {:induction false} NamesAre(n: nat, s: string)
    ensures s in Names(n) <==> exists i :: 0 <= i < n && s == Name(i)
  {
    if n > 0 { NamesAre(n - 1, s); }
  }

  lemma {:induction false} NamesCount(n: nat)
    ensures |Names(n)| == n
  {
    if n > 0 {
      NamesCount(n - 1);
      NamesAre(n - 1, Name(n - 1));
      if Name(n - 1) in Names(n - 1) {
        var i :| 0 <= i < n - 1 && Name(n - 1) == Name(i);
        NamesDiffer(n - 1, i);
      }
    }
  }

  function NoRaw(): RawSpec { RawSpec("", "", "") }
  function JoinRecord(id: string, doc: string, ts: int): Record { Record(Join, id, "", 0, ts, "", doc, NoRaw()) }
  function LeaveRecord(id: string, ts: int): Record { Record(Leave, id, "", 0, ts, "", "exit-" + id, NoRaw()) }
  function PayRecord(from: string, to: string, amount: nat, request: string, ts: int): Record {
    Record(Pay, from, to, amount, ts, request, "", NoRaw())
  }

  // ---------------------------------------------------------- what the compiler makes of it

  /** The registry knows exactly the active agents as active, under the addresses it allocated. */
  ghost predicate RegistryIs(env: Env, agents: Agents, active: set<string>) {
    && (forall id :: IsActive(agents, id) <==> id in active)
    && (forall id :: id in agents ==> agents[id].did == AllocatedDID(env.address, id))
  }

  /** The records compile from an empty registry, and leave these agents active. */
  ghost predicate CompilesTo(env: Env, records: seq<Record>, active: set<string>) {
    var p := Compiled(env, EmptyPlan(map[]), records);
    p.Some? && RegistryIs(env, p.value.agents, active)
  }

  lemma OneMoreRecord(env: Env, records: seq<Record>, r: Record)
    requires Compiled(env, EmptyPlan(map[]), records).Some?
    ensures Compiled(env, EmptyPlan(map[]), records + [r]) == Processed(env, Compiled(env, EmptyPlan(map[]), records).value, r)
  {
    assert (records + [r])[..|records|] == records;
  }

  lemma JoinSteps(env: Env, p: Plan, r: Record, active: set<string>)
    requires RegistryIs(env, p.agents, active) && Hex2Addr(env.contract).Some? && p.links != [] && r.action.Join? && r.agentID != ""
    ensures Step(env, p, r).Some? && RegistryIs(env, Step(env, p, r).value.agents, active + {r.agentID})
  {
    AllocatedAddress(env.address, r.agentID);
    hide DidAddress, Hex2Addr, AllocatedDID;
  }

  lemma LeaveSteps(env: Env, p: Plan, r: Record, active: set<string>)
    requires RegistryIs(env, p.agents, active) && Hex2Addr(env.contract).Some? && p.links != [] && r.action.Leave? && r.agentID in active
    ensures Step(env, p, r).Some? && RegistryIs(env, Step(env, p, r).value.agents, active - {r.agentID})
  {
    AllocatedAddress(env.address, r.agentID);
    hide DidAddress, Hex2Addr, AllocatedDID;
  }

  lemma PaySteps(env: Env, p: Plan, r: Record, active: set<string>)
    requires RegistryIs(env, p.agents, active) && p.links != [] && r.action.Pay? && r.agentID in active && r.target in active
    ensures Step(env, p, r).Some? && RegistryIs(env, Step(env, p, r).value.agents, active)
  {
    AllocatedAddress(env.address, r.agentID);
    AllocatedAddress(env.address, r.target);
    hide DidAddress, Hex2Addr, AllocatedDID;
  }

  function WithLink(p: Plan, r: Record): Plan { p.(links := p.links + [Link(r, [])]) }

  lemma RecordCompiles(env: Env, records: seq<Record>, active: set<string>, r: Record)
    requires CompilesTo(env, records, active)
    ensures r.action.Join? && r.agentID != "" && Hex2Addr(env.contract).Some? ==> CompilesTo(env, records + [r], active + {r.agentID})
    ensures r.action.Leave? && r.agentID in active && Hex2Addr(env.contract).Some? ==> CompilesTo(env, records + [r], active - {r.agentID})
    ensures r.action.Pay? && r.agentID in active && r.target in active ==> CompilesTo(env, records + [r], active)
  {
    var p := WithLink(Compiled(env, EmptyPlan(map[]), records).value, r);
    OneMoreRecord(env, records, r);
    hide Step, RegistryIs, Hex2Addr;
    if r.action.Join? && r.agentID != "" && Hex2Addr(env.contract).Some? { JoinSteps(env, p, r, active); }
    if r.action.Leave? && r.agentID in active && Hex2Addr(env.contract).Some? { LeaveSteps(env, p, r, active); }
    if r.action.Pay? && r.agentID in active && r.target in active { PaySteps(env, p, r, active); }
  }

  // ----------------------------------------------------------------------- the generator

  ghost function Members(s: seq<string>): set<string> { set x | x in s }

  /** Active and left agents partition all agents, and the pool never drains. */
  ghost predicate Pools(n: nat, active: set<string>, left: seq<string>) {
    && active !! Members(left) && active + Members(left) == Names(n)
    && (forall i, j :: 0 <= i < j < |left| ==> left[i] != left[j])
    && |active| >= (if n < MIN_ACTIVE then n else MIN_ACTIVE)
  }

  lemma Rejoined(n: nat, active: set<string>, left: seq<string>)
    requires Pools(n, active, left) && left != []
    ensures Pools(n, active + {left[0]}, left[1..]) && left[0] in Names(n)
  {
    assert left == [left[0]] + left[1..];
    assert Members(left) == {left[0]} + Members(left[1..]);
  }

  lemma Departed(n: nat, active: set<string>, left: seq<string>, id: string)
    requires Pools(n, active, left) && id in active && |active| > MIN_ACTIVE
    ensures Pools(n, active - {id}, left + [id])
  {
    hide Names;
    MembersOneMore(left, id);
    hide Members;
    assert |active - {id}| == |active| - 1;
  }

  lemma MembersOneMore(left: seq<string>, id: string)
    ensures Members(left + [id]) == Members(left) + {id}
    ensures id !in Members(left) && (forall i, j :: 0 <= i < j < |left| ==> left[i] != left[j]) ==>
              forall i, j :: 0 <= i < j < |left + [id]| ==> (left + [id])[i] != (left + [id])[j]
  {
    if id !in Members(left) && (forall i, j :: 0 <= i < j < |left| ==> left[i] != left[j]) {
      forall i, j | 0 <= i < j < |left + [id]| ensures (left + [id])[i] != (left + [id])[j] {
        assert left[i] in Members(left);
      }
    }
  }

  ghost predicate Stamped(records: seq<Record>) {
    forall k :: 0 <= k < |records| ==> records[k].ts == k + 1
  }

  function DocOf(id: string, suffix: string): string { "doc-" + id + suffix }

  /** Everyone joins. */
  method JoinAll(n: nat, ghost env: Env) returns (records: seq<Record>, active: set<string>)
    requires Hex2Addr(env.contract).Some?
    ensures CompilesTo(env, records, active) && active == Names(n) && Stamped(records) && |records| == n
  {
    records, active := [], {};
    hide Hex2Addr, DocOf, Name;
    for i := 0 to n
      invariant CompilesTo(env, records, active) && active == Names(i)
      invariant Stamped(records) && |records| == i
    {
      hide CompilesTo;
      var id := Name(i);
      var r := JoinRecord(id, DocOf(id, "-v1"), i + 1);
      RecordCompiles(env, records, active, r);
      records, active := records + [r], active + {id};
    }
  }

  /**
   * For any number of agents, payments and rotation period and any random choices, the trace compiles from an empty
   * registry, and at least two agents are active throughout.
   */
  method GenPayTrace(n: nat, pays: nat, lifecycleEvery: int, ghost env: Env)
      returns (records: seq<Record>, active: set<string>, left: seq<string>)
    requires n >= 2 && Hex2Addr(env.contract).Some?
    ensures CompilesTo(env, records, active)
    ensures Pools(n, active, left) && |active| >= 2 && |active| + |left| == n
    ensures Stamped(records)
    ensures |records| >= n + pays
  {
    records, active := JoinAll(n, env);
    left := [];
    NamesCount(n);
    assert Pools(n, active, left);
    hide CompilesTo, Pools, Hex2Addr, Stamped;
    for k := 1 to pays + 1
      invariant CompilesTo(env, records, active) && Pools(n, active, left) && Stamped(records)
      invariant |records| >= n + k - 1
    {
      if lifecycleEvery > 0 && k > 1 && (k - 1) % lifecycleEvery == 0 {
        records, active, left := Rotate(n, records, active, left, env);
      }
      records := EmitPay(n, records, active, left, k, env);
    }
    PoolSizes(n, active, left);
  }

  lemma PoolSizes(n: nat, active: set<string>, left: seq<string>)
    requires Pools(n, active, left)
    ensures |active| + |left| == n && (n >= 2 ==> |active| >= 2)
  {
    NamesCount(n);
    DistinctSize(left);
    assert |active + Members(left)| == |active| + |Members(left)|;
  }

  lemma {:induction false} DistinctSize(s: seq<string>)
    requires forall i, j :: 0 <= i < j < |s| ==> s[i] != s[j]
    ensures |Members(s)| == |s|
  {
    if s == [] {
      assert Members(s) == {};
    } else {
      var most, last := s[..|s| - 1], s[|s| - 1];
      assert s == most + [last];
      DistinctSize(most);
      assert Members(s) == Members(most) + {last};
      assert last !in Members(most);
    }
  }

  /** The agent that left first rejoins, then a random active one leaves if enough remain. */
  method Rotate(n: nat, records: seq<Record>, active: set<string>, left: seq<string>, ghost env: Env)
      returns (records': seq<Record>, active': set<string>, left': seq<string>)
    requires CompilesTo(env, records, active) && Pools(n, active, left) && Stamped(records) && Hex2Addr(env.contract).Some?
    ensures CompilesTo(env, records', active') && Pools(n, active', left') && Stamped(records') && |records'| >= |records|
  {
    records', active', left' := records, active, left;
    hide CompilesTo, Pools, Hex2Addr, DocOf;
    if left != [] {
      var id := left[0];
      Rejoined(n, active, left);
      NotEmpty(n, id);
      var r := JoinRecord(id, DocOf(id, "-rejoin"), |records'| + 1);
      RecordCompiles(env, records', active', r);
      records', active', left' := records' + [r], active + {id}, left[1..];
    }
    if |active'| > MIN_ACTIVE {
      ghost var some := SomeMember(active');
      var id :| id in active';
      var r := LeaveRecord(id, |records'| + 1);
      Departed(n, active', left', id);
      RecordCompiles(env, records', active', r);
      records', active', left' := records' + [r], active' - {id}, left' + [id];
    }
  }

  lemma NotEmpty(n: nat, id: string)
    requires id in Names(n)
    ensures id != ""
  {
    NamesAre(n, id);
  }

  /** With two active agents there is another one beside any. */
  lemma AnotherOne(n: nat, active: set<string>, left: seq<string>, sender: string) returns (other: string)
    requires n >= 2 && Pools(n, active, left) && sender in active
    ensures other in active - {sender}
  {
    PoolSizes(n, active, left);
    assert |active - {sender}| == |active| - 1;
    other := SomeMember(active - {sender});
  }

  /** Two different active agents and an amount from 1 to 100. */
  method EmitPay(n: nat, records: seq<Record>, active: set<string>, ghost left: seq<string>, k: nat, ghost env: Env)
      returns (records': seq<Record>)
    requires n >= 2 && CompilesTo(env, records, active) && Pools(n, active, left) && Stamped(records)
    ensures CompilesTo(env, records', active) && Stamped(records') && |records'| == |records| + 1
    ensures var r := records'[|records|];
            r.action.Pay? && r.agentID in active && r.target in active && r.agentID != r.target && 1 <= r.amount <= 100
  {
    hide CompilesTo, Pools, PadLeft, Decimal;
    PoolSizes(n, active, left);
    ghost var a := SomeMember(active);
    var sender :| sender in active;
    ghost var b := AnotherOne(n, active, left, sender);
    var target :| target in active - {sender};
    var amount: nat :| 1 <= amount <= 100;
    var r := PayRecord(sender, target, amount, "pay-" + PadLeft(Decimal(k), 5), |records| + 1);
    RecordCompiles(env, records, active, r);
    records' := records + [r];
  }
}
