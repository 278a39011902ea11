/**
 * The agents router: `update`, `remove`, `getOne`, `getMany` and `create`,
 * each scoped to the calling user.
 */
module Agents {
  import opened Schema
  import opened Paging

  /** The insert input: what the agent form submits. */
  datatype AgentInsert = AgentInsert(name: string, instructions: string)

  /** The update input: the insert fields and the id of the row to change. */
  datatype AgentUpdate = AgentUpdate(id: string, name: string, instructions: string)

  /** An agent's columns with `meetingCount`, the number of meetings assigned to it. */
  datatype AgentDetail = AgentDetail(agent: Agent, meetingCount: nat)

  const AGENT_NOT_FOUND := "Agent not found"

  predicate OwnedBy(agents: AgentTable, id: string, caller: string) {
    id in agents && agents[id].userId == caller
  }

  /** The row `create` inserts: the input, the caller as owner, and the creation time. */
  function NewAgent(caller: string, input: AgentInsert, id: string, now: Instant): (a: Agent)
    ensures a.id == id && a.userId == caller && a.createdAt == now
    ensures a.name == input.name && a.instructions == input.instructions
  {
    Agent(id, input.name, caller, input.instructions, now)
  }

  /** `.set(input)` on a row. */
  function Updated(row: Agent, input: AgentUpdate): (a: Agent)
    ensures a.id == input.id && a.name == input.name && a.instructions == input.instructions
    ensures a.(id := row.id, name := row.name, instructions := row.instructions) == row
  {
    row.(id := input.id, name := input.name, instructions := input.instructions)
  }

  /** `meetingCount`: the meetings, of any owner, whose `agentId` is the agent's id. */
  function Detail(meetings: MeetingTable, agent: Agent): (d: AgentDetail)
    ensures d.agent == agent
    ensures d.meetingCount == |MeetingIdsOfAgent(meetings, agent.id)|
  {
    AgentDetail(agent, |MeetingIdsOfAgent(meetings, agent.id)|)
  }

  /** `update`: only the caller's agent with that id changes; otherwise NOT_FOUND and no change. */
  method Update(db: Database, caller: string, input: AgentUpdate) returns (r: Result<Agent>)
    requires db.Valid()
    modifies db`agents
    ensures db.Valid()
    ensures OwnedBy(old(db.agents), input.id, caller) ==>
              && db.agents == old(db.agents)[input.id := Updated(old(db.agents)[input.id], input)]
              && r == Ok(db.agents[input.id])
    ensures !OwnedBy(old(db.agents), input.id, caller) ==>
              r == Err(NotFound(AGENT_NOT_FOUND)) && db.agents == old(db.agents)
  {
    if input.id in db.agents && db.agents[input.id].userId == caller {
      var row := Updated(db.agents[input.id], input);
      db.agents := db.agents[input.id := row];
      r := Ok(row);
    } else {
      r := Err(NotFound(AGENT_NOT_FOUND));
    }
  }

  /** `remove`: deletes exactly the caller's agent with that id and returns it. */
  method Remove(db: Database, caller: string, id: string) returns (r: Result<Agent>)
    requires db.Valid()
    modifies db`agents
    ensures db.Valid()
    ensures OwnedBy(old(db.agents), id, caller) ==>
              && db.agents == old(db.agents) - {id}
              && r == Ok(old(db.agents)[id])
              && |db.agents| == |old(db.agents)| - 1
    ensures !OwnedBy(old(db.agents), id, caller) ==>
              r == Err(NotFound(AGENT_NOT_FOUND)) && db.agents == old(db.agents)
    ensures GetOne(db.meetings, db.agents, caller, id).Err?
  {
    if id in db.agents && db.agents[id].userId == caller {
      r := Ok(db.agents[id]);
      db.agents := db.agents - {id};
    } else {
      r := Err(NotFound(AGENT_NOT_FOUND));
    }
  }

  /** `getOne`: the agent and its meeting count, only when the caller owns it. */
  function GetOne(meetings: MeetingTable, agents: AgentTable, caller: string, id: string): (r: Result<AgentDetail>)
    requires AgentsKeyed(agents)
    ensures r.Ok? <==> OwnedBy(agents, id, caller)
    ensures r.Ok? ==> r.value.agent == agents[id] && r.value.agent.userId == caller
    ensures r.Ok? ==> r.value.meetingCount == |MeetingIdsOfAgent(meetings, id)|
    ensures r.Err? ==> r.error == NotFound(AGENT_NOT_FOUND)
  {
    if id in agents && agents[id].userId == caller then Ok(Detail(meetings, agents[id]))
    else Err(NotFound(AGENT_NOT_FOUND))
  }

  /**
   * `create`: exactly one new row, owned by the caller whatever the input.
   * The id is the column default, drawn fresh by the database.
   */
  method Create(db: Database, caller: string, input: AgentInsert, id: string, now: Instant)
    returns (created: Agent)
    requires db.Valid() && id !in db.agents
    modifies db`agents
    ensures db.Valid()
    ensures created == NewAgent(caller, input, id, now)
    ensures db.agents == old(db.agents)[id := created]
    ensures |db.agents| == |old(db.agents)| + 1
    ensures GetOne(db.meetings, db.agents, caller, id).Ok?
  {
    created := NewAgent(caller, input, id, now);
    db.agents := db.agents[id := created];
  }

  /** The rows both queries of `getMany` select: the caller's, matching the search. */
  ghost function MatchingIds(agents: AgentTable, caller: string, search: Option<string>): (ids: set<string>)
    ensures forall k :: k in ids <==> k in agents && agents[k].userId == caller && MatchesSearch(agents[k].name, search)
  {
    set k | k in agents && agents[k].userId == caller && MatchesSearch(agents[k].name, search)
  }

  function CreatedAt(agents: AgentTable): (createdAt: string -> int) {
    k => if k in agents then agents[k].createdAt else 0
  }

  /** The selected rows of `getMany`, each with its meeting count. */
  function WithCounts(meetings: MeetingTable, agents: AgentTable, ids: seq<string>): (items: seq<AgentDetail>)
    requires AgentsKeyed(agents)
    requires forall i :: 0 <= i < |ids| ==> ids[i] in agents
    ensures |items| == |ids|
    ensures forall i :: 0 <= i < |ids| ==>
              && items[i].agent.id == ids[i]
              && items[i].agent == agents[ids[i]]
              && items[i].meetingCount == |MeetingIdsOfAgent(meetings, ids[i])|
  {
    seq(|ids|, i requires 0 <= i < |ids| => Detail(meetings, agents[ids[i]]))
  }

  /** The `getMany` result for a validated request. */
  ghost function AgentPage(meetings: MeetingTable, agents: AgentTable, caller: string, req: PageRequest)
    : (l: Listing<AgentDetail>)
    requires AgentsKeyed(agents) && req.page >= 1 && req.pageSize >= 1
    ensures |l.items| <= req.pageSize
    ensures forall i :: 0 <= i < |l.items| ==>
              && l.items[i].agent.id in agents
              && l.items[i].agent == agents[l.items[i].agent.id]
              && l.items[i].agent.userId == caller
              && MatchesSearch(l.items[i].agent.name, req.search)
              && l.items[i].meetingCount == |MeetingIdsOfAgent(meetings, l.items[i].agent.id)|
    ensures forall i, j :: 0 <= i < j < |l.items| ==>
              Before(l.items[i].agent.createdAt, l.items[i].agent.id, l.items[j].agent.createdAt, l.items[j].agent.id)
    ensures l.total == |MatchingIds(agents, caller, req.search)|
    ensures forall i :: 0 <= i < |l.items| ==>
              && PageOffset(req.page, req.pageSize) + i < l.total
              && l.items[i].agent.id ==
                 SortIds(MatchingIds(agents, caller, req.search), CreatedAt(agents))[PageOffset(req.page, req.pageSize) + i]
    ensures PageOffset(req.page, req.pageSize) < l.total ==>
              |l.items| == Min(req.pageSize, l.total - PageOffset(req.page, req.pageSize))
    ensures l.totalPages == TotalPages(l.total, req.pageSize)
  {
    var ids := PageOfIds(MatchingIds(agents, caller, req.search), CreatedAt(agents), req.page, req.pageSize);
    var items := WithCounts(meetings, agents, ids);
    forall i, j | 0 <= i < j < |items|
      ensures Before(items[i].agent.createdAt, items[i].agent.id, items[j].agent.createdAt, items[j].agent.id)
    {
      assert Before(CreatedAt(agents)(ids[i]), ids[i], CreatedAt(agents)(ids[j]), ids[j]);
    }
    var total := |MatchingIds(agents, caller, req.search)|;
    Listing(items, total, TotalPages(total, req.pageSize))
  }

  /**
   * `getMany`: one page of the caller's agents with their meeting counts,
   * newest first, and the count of all of them; a bad input is rejected.
   */
  ghost function GetMany(meetings: MeetingTable, agents: AgentTable, caller: string, input: ListInput, limits: PageLimits)
    : (r: Result<Listing<AgentDetail>>)
    requires AgentsKeyed(agents) && limits.minPageSize >= 1
    ensures r.Err? <==> ValidateListInput(input, limits).Err?
    ensures r.Err? ==> r.error == BadRequest(INVALID_INPUT)
    ensures r.Ok? ==> r.value == AgentPage(meetings, agents, caller, ValidateListInput(input, limits).value)
  {
    match ValidateListInput(input, limits)
    case Err(e) => Err(e)
    case Ok(req) => Ok(AgentPage(meetings, agents, caller, req))
  }

  /** `getMany` never counts more than the caller's own agents. */
  lemma {:induction false} ListingWithinOwned(agents: AgentTable, caller: string, search: Option<string>)
    ensures |MatchingIds(agents, caller, search)| <= |OwnedAgentIds(agents, caller)|
  {
    SubsetCard(MatchingIds(agents, caller, search), OwnedAgentIds(agents, caller));
  }

  /** An empty or absent search lists every agent of the caller. */
  lemma {:induction false} NoSearchSelectsAll(agents: AgentTable, caller: string, search: Option<string>)
    requires !Truthy(search)
    ensures MatchingIds(agents, caller, search) == OwnedAgentIds(agents, caller)
  {
  }
}
