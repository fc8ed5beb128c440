/** Agent identities: who has joined, who is active. */
module Registry {
  import opened Prelude
  import opened TextFormats

  datatype Agent = Agent(agentID: string, did: string, active: bool)

  type Agents = map<string, Agent>

  const DID_PREFIX := "did:broker:"

  /** The identity of a new agent; the address is the tail of a hash of seed and name. */
  function AllocatedDID(address: string -> Address, agentID: string): string {
    DID_PREFIX + "0x" + HexEncode(address(agentID))
  }

  function TrimHexPrefix(s: string): string {
    if |s| >= 2 && s[..2] == "0x" then s[2..] else s
  }

  function DidAddress(did: string): Option<Address> {
    if !(DID_PREFIX <= did) then None else
    var hexAddr := did[|DID_PREFIX|..];
    if |TrimHexPrefix(hexAddr)| != 40 then None else Hex2Addr(hexAddr)
  }

  /** An allocated identity carries its address. */
  lemma AllocatedAddress(address: string -> Address, agentID: string)
    ensures DidAddress(AllocatedDID(address, agentID)) == Some(address(agentID))
  {
    var did := AllocatedDID(address, agentID);
    var hexAddr := "0x" + HexEncode(address(agentID));
    assert did[|DID_PREFIX|..] == hexAddr;
    PrefixedRoundTrip(address(agentID));
  }

  // ------------------------------------------------------------------------- operations

  function Known(agents: Agents, address: string -> Address, agentID: string): Agent {
    if agentID in agents then agents[agentID] else Agent(agentID, AllocatedDID(address, agentID), false)
  }

  /** The agents afterwards, the agent, and whether it was inactive before. */
  function Joined(agents: Agents, address: string -> Address, agentID: string): Option<(Agents, Agent, bool)> {
    if agentID == "" then None else
    var agent := Known(agents, address, agentID);
    var joined := agent.(active := true);
    Some((agents[agentID := joined], joined, !agent.active))
  }

  predicate IsActive(agents: Agents, agentID: string) { agentID in agents && agents[agentID].active }

  function Left(agents: Agents, agentID: string): Option<(Agents, Agent)> {
    if !IsActive(agents, agentID) then None else
    var agent := agents[agentID].(active := false);
    Some((agents[agentID := agent], agent))
  }

  // -------------------------------------------------------------------------- histories

  datatype Operation = Joins(agentID: string) | Leaves(agentID: string)

  /** Operations that are refused leave the registry alone. */
  function Done(agents: Agents, address: string -> Address, op: Operation): Agents {
    match op
    case Joins(id) => (match Joined(agents, address, id) case None => agents case Some((after, _, _)) => after)
    case Leaves(id) => (match Left(agents, id) case None => agents case Some((after, _)) => after)
  }

  function DoneAll(address: string -> Address, ops: seq<Operation>): Agents {
    if ops == [] then map[] else Done(DoneAll(address, ops[..|ops| - 1]), address, ops[|ops| - 1])
  }

  /** The agent has joined and not left since. */
  ghost predicate JoinedLast(ops: seq<Operation>, agentID: string) {
    exists i :: 0 <= i < |ops| && ops[i] == Joins(agentID) && forall j :: i < j < |ops| ==> ops[j] != Leaves(agentID)
  }

  lemma JoinedLastSnoc(ops: seq<Operation>, op: Operation, agentID: string)
    ensures JoinedLast(ops + [op], agentID) <==> op == Joins(agentID) || (op != Leaves(agentID) && JoinedLast(ops, agentID))
  {
    var more := ops + [op];
    if JoinedLast(more, agentID) {
      var i :| 0 <= i < |more| && more[i] == Joins(agentID) && forall j :: i < j < |more| ==> more[j] != Leaves(agentID);
      if i < |ops| {
        assert more[|ops|] == op;
        assert ops[i] == Joins(agentID) && forall j :: i < j < |ops| ==> ops[j] == more[j];
      }
    }
    if op == Joins(agentID) { assert more[|ops|] == Joins(agentID); }
    if op != Leaves(agentID) && JoinedLast(ops, agentID) {
      var i :| 0 <= i < |ops| && ops[i] == Joins(agentID) && forall j :: i < j < |ops| ==> ops[j] != Leaves(agentID);
      assert more[i] == Joins(agentID);
    }
  }

  /**
   * After any operations on an empty registry, refused ones included, an agent with a name is active if and only if
   * it has joined and not left since, and however often it comes and goes it keeps the identity it was given first.
   */
  lemma {:induction false} ActiveExactlyWhen(address: string -> Address, ops: seq<Operation>, agentID: string)
    ensures IsActive(DoneAll(address, ops), agentID) <==> agentID != "" && JoinedLast(ops, agentID)
    ensures agentID in DoneAll(address, ops) ==>
              DoneAll(address, ops)[agentID] == Agent(agentID, AllocatedDID(address, agentID), IsActive(DoneAll(address, ops), agentID))
  {
    if ops != [] {
      var most, op := ops[..|ops| - 1], ops[|ops| - 1];
      ActiveExactlyWhen(address, most, agentID);
      JoinedLastSnoc(most, op, agentID);
      assert ops == most + [op];
      hide AllocatedDID;
    }
  }

  class Registry {
    var agents: Agents
    const address: string -> Address

    constructor (address: string -> Address, agents: Agents)
      ensures this.agents == agents && this.address == address
    {
      this.agents, this.address := agents, address;
    }

    method Join(agentID: string) returns (r: Option<(Agent, bool)>)
      modifies this
      ensures r.None? <==> Joined(old(agents), address, agentID).None?
      ensures r.None? ==> agents == old(agents)
      ensures r.Some? ==> Joined(old(agents), address, agentID) == Some((agents, r.value.0, r.value.1))
    {
      if agentID == "" { return None; }
      var agent := if agentID in agents then agents[agentID] else Agent(agentID, AllocatedDID(address, agentID), false);
      var wasActive := agent.active;
      agent := agent.(active := true);
      agents := agents[agentID := agent];
      return Some((agent, !wasActive));
    }

    method Leave(agentID: string) returns (r: Option<Agent>)
      modifies this
      ensures r.None? <==> Left(old(agents), agentID).None?
      ensures r.None? ==> agents == old(agents)
      ensures r.Some? ==> Left(old(agents), agentID) == Some((agents, r.value))
    {
      if agentID !in agents || !agents[agentID].active { return None; }
      var agent := agents[agentID].(active := false);
      agents := agents[agentID := agent];
      return Some(agent);
    }

    method Active(agentID: string) returns (r: Option<Agent>)
      ensures r == if IsActive(agents, agentID) then Some(agents[agentID]) else None
    {
      if agentID !in agents || !agents[agentID].active { return None; }
      return Some(agents[agentID]);
    }
  }
}
