/**
 * The meetings router: `update`, `create`, `getOne` and `getMany`, each
 * scoped to the calling user.
 */
module Meetings {
  import opened Schema
  import opened Paging

  /** The insert input: what the meeting form submits. */
  datatype MeetingInsert = MeetingInsert(name: string, agentId: string)

  /** The update input: the insert fields and the id of the row to change. */
  datatype MeetingUpdate = MeetingUpdate(id: string, name: string, agentId: string)

  /** One `getMany` row: the meeting's columns, its joined agent and `meetingCount`. */
  datatype MeetingListItem = MeetingListItem(meeting: Meeting, agent: Agent, meetingCount: int)

  const MEETING_NOT_FOUND := "Meeting not found"
  /** `getOne` reports a missing meeting with this message. */
  const GET_ONE_NOT_FOUND := "Agent not found"
  /** `getMany` selects the constant `5` as `meetingCount`. */
  const LISTED_MEETING_COUNT := 5

  predicate OwnedBy(meetings: MeetingTable, id: string, caller: string) {
    id in meetings && meetings[id].userId == caller
  }

  /** The row `create` inserts: column defaults, the input, and the caller as owner. */
  function NewMeeting(caller: string, input: MeetingInsert, id: string, now: Instant): (m: Meeting)
    ensures m.id == id && m.userId == caller && m.name == input.name && m.agentId == input.agentId
    ensures m.status == Upcoming && m.createdAt == now
    ensures m.startedAt.None? && m.endedAt.None? && m.transcriptUrl.None? && m.recordingUrl.None? && m.summary.None?
  {
    Meeting(id, input.name, caller, input.agentId, Upcoming, None, None, None, None, None, now)
  }

  /** `.set(input)` on a row. */
  function Updated(row: Meeting, input: MeetingUpdate): (m: Meeting)
    ensures m.name == input.name && m.agentId == input.agentId && m.id == input.id
    ensures m.(name := row.name, agentId := row.agentId, id := row.id) == row
  {
    row.(id := input.id, name := input.name, agentId := input.agentId)
  }

  /** `update`: only the caller's row with that id changes; otherwise NOT_FOUND and no change. */
  method Update(db: Database, caller: string, input: MeetingUpdate) returns (r: Result<Meeting>)
    requires db.Valid()
    modifies db`meetings
    ensures db.Valid()
    ensures OwnedBy(old(db.meetings), input.id, caller) ==>
              && db.meetings == old(db.meetings)[input.id := Updated(old(db.meetings)[input.id], input)]
              && r == Ok(db.meetings[input.id])
    ensures !OwnedBy(old(db.meetings), input.id, caller) ==>
              r == Err(NotFound(MEETING_NOT_FOUND)) && db.meetings == old(db.meetings)
  {
    if input.id in db.meetings && db.meetings[input.id].userId == caller {
      var row := Updated(db.meetings[input.id], input);
      db.meetings := db.meetings[input.id := row];
      r := Ok(row);
    } else {
      r := Err(NotFound(MEETING_NOT_FOUND));
    }
  }

  /**
   * `create`: exactly one new row, owned by the caller whatever the input.
   * The id is the column default, drawn fresh by the database.
   */
  method Create(db: Database, caller: string, input: MeetingInsert, id: string, now: Instant)
    returns (created: Meeting)
    requires db.Valid() && id !in db.meetings
    modifies db`meetings
    ensures db.Valid()
    ensures created == NewMeeting(caller, input, id, now)
    ensures db.meetings == old(db.meetings)[id := created]
    ensures |db.meetings| == |old(db.meetings)| + 1
    ensures GetOne(db.meetings, caller, id) == Ok(created)
  {
    created := NewMeeting(caller, input, id, now);
    db.meetings := db.meetings[id := created];
  }

  /** `getOne`: the meeting, only when the caller owns it. */
  function GetOne(meetings: MeetingTable, caller: string, id: string): (r: Result<Meeting>)
    ensures r.Ok? <==> OwnedBy(meetings, id, caller)
    ensures r.Ok? ==> r.value == meetings[id] && r.value.userId == caller
    ensures r.Err? ==> r.error == NotFound(GET_ONE_NOT_FOUND)
  {
    if id in meetings && meetings[id].userId == caller then Ok(meetings[id]) else Err(NotFound(GET_ONE_NOT_FOUND))
  }

  /** The rows both queries of `getMany` select: the caller's, with an agent, matching the search. */
  ghost function MatchingIds(meetings: MeetingTable, agents: AgentTable, caller: string, search: Option<string>): (ids: set<string>)
    ensures forall k :: k in ids <==>
              k in meetings && meetings[k].userId == caller && meetings[k].agentId in agents &&
              MatchesSearch(meetings[k].name, search)
  {
    set k | k in meetings && meetings[k].userId == caller && meetings[k].agentId in agents &&
            MatchesSearch(meetings[k].name, search)
  }

  function CreatedAt(meetings: MeetingTable): (createdAt: string -> int) {
    k => if k in meetings then meetings[k].createdAt else 0
  }

  /** The `getMany` result for a validated request. */
  ghost function MeetingPage(meetings: MeetingTable, agents: AgentTable, caller: string, req: PageRequest)
    : (l: Listing<MeetingListItem>)
    requires MeetingsKeyed(meetings) && req.page >= 1 && req.pageSize >= 1
    ensures |l.items| <= req.pageSize
    ensures forall i :: 0 <= i < |l.items| ==>
              && l.items[i].meeting.id in meetings
              && l.items[i].meeting == meetings[l.items[i].meeting.id]
              && l.items[i].meeting.userId == caller
              && l.items[i].meeting.agentId in agents
              && l.items[i].agent == agents[l.items[i].meeting.agentId]
              && MatchesSearch(l.items[i].meeting.name, req.search)
              && l.items[i].meetingCount == LISTED_MEETING_COUNT
    ensures forall i, j :: 0 <= i < j < |l.items| ==>
              Before(l.items[i].meeting.createdAt, l.items[i].meeting.id, l.items[j].meeting.createdAt, l.items[j].meeting.id)
    ensures l.total == |MatchingIds(meetings, agents, caller, req.search)|
    ensures forall i :: 0 <= i < |l.items| ==>
              && PageOffset(req.page, req.pageSize) + i < l.total
              && l.items[i].meeting.id == SortIds(MatchingIds(meetings, agents, caller, req.search), CreatedAt(meetings))[PageOffset(req.page, req.pageSize) + i]
    ensures PageOffset(req.page, req.pageSize) < l.total ==> |l.items| == Min(req.pageSize, l.total - PageOffset(req.page, req.pageSize))
    ensures l.totalPages == TotalPages(l.total, req.pageSize)
  {
    var ids := PageOfIds(MatchingIds(meetings, agents, caller, req.search), CreatedAt(meetings), req.page, req.pageSize);
    var items := JoinAgents(meetings, agents, ids);
    forall i, j | 0 <= i < j < |items|
      ensures Before(items[i].meeting.createdAt, items[i].meeting.id, items[j].meeting.createdAt, items[j].meeting.id)
    {
      assert Before(CreatedAt(meetings)(ids[i]), ids[i], CreatedAt(meetings)(ids[j]), ids[j]);
    }
    var total := |MatchingIds(meetings, agents, caller, req.search)|;
    Listing(items, total, TotalPages(total, req.pageSize))
  }

  /** The selected rows of `getMany`, each with the agent of its inner join. */
  function JoinAgents(meetings: MeetingTable, agents: AgentTable, ids: seq<string>): (items: seq<MeetingListItem>)
    requires MeetingsKeyed(meetings)
    requires forall i :: 0 <= i < |ids| ==> ids[i] in meetings && meetings[ids[i]].agentId in agents
    ensures |items| == |ids|
    ensures forall i :: 0 <= i < |ids| ==>
              && items[i].meeting.id == ids[i]
              && items[i].meeting == meetings[ids[i]]
              && items[i].agent == agents[meetings[ids[i]].agentId]
              && items[i].meetingCount == LISTED_MEETING_COUNT
  {
    seq(|ids|, i requires 0 <= i < |ids| =>
      MeetingListItem(meetings[ids[i]], agents[meetings[ids[i]].agentId], LISTED_MEETING_COUNT))
  }

  /**
   * `getMany`: one page of the caller's meetings joined with their agents,
   * newest first, and the count of all of them; a bad input is rejected.
   */
  ghost function GetMany(meetings: MeetingTable, agents: AgentTable, caller: string, input: ListInput, limits: PageLimits)
    : (r: Result<Listing<MeetingListItem>>)
    requires MeetingsKeyed(meetings) && limits.minPageSize >= 1
    ensures r.Err? <==> ValidateListInput(input, limits).Err?
    ensures r.Err? ==> r.error == BadRequest(INVALID_INPUT)
    ensures r.Ok? ==> r.value == MeetingPage(meetings, agents, caller, ValidateListInput(input, limits).value)
  {
    match ValidateListInput(input, limits)
    case Err(e) => Err(e)
    case Ok(req) => Ok(MeetingPage(meetings, agents, caller, req))
  }

  /** `getMany` never counts more than the caller's own meetings. */
  lemma {:induction false} ListingWithinOwned(meetings: MeetingTable, agents: AgentTable, caller: string, search: Option<string>)
    ensures |MatchingIds(meetings, agents, caller, search)| <= |OwnedMeetingIds(meetings, caller)|
  {
    SubsetCard(MatchingIds(meetings, agents, caller, search), OwnedMeetingIds(meetings, caller));
  }

  /** An empty or absent search lists every meeting of the caller that has an agent. */
  lemma {:induction false} NoSearchSelectsAll(meetings: MeetingTable, agents: AgentTable, caller: string, search: Option<string>)
    requires !Truthy(search)
    ensures MatchingIds(meetings, agents, caller, search) ==
            set k | k in OwnedMeetingIds(meetings, caller) && meetings[k].agentId in agents
  {
  }
}
