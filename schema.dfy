/**
 * Rows of the application's tables (meetings, agents, users), the
 * failure-carrying result types the procedures return, and the database
 * object that the procedures, the webhook and the background job update.
 *
 * Every table is a map from primary key to row; the database invariant says
 * each row is stored under its own id.
 */
module Schema {

  datatype Option<+T> = None | Some(value: T) {
    function GetOr(default: T): T {
      match this
      case Some(v) => v
      case None => default
    }
  }

  /** A tRPC error as the procedures raise it: a code and a message. */
  datatype ProcError = NotFound(message: string) | BadRequest(message: string)

  datatype Result<+T> = Ok(value: T) | Err(error: ProcError)

  /**
   * JavaScript truthiness of an optional string: present and non-empty.
   * Both `!meetingId` in the webhook and `search ? … : undefined` in the
   * listings test it.
   */
  predicate Truthy(s: Option<string>)
    ensures !Truthy(s) <==> s == None || s == Some("")
  {
    s.Some? && s.value != ""
  }

  /** The five lifecycle statuses of a meeting. */
  datatype MeetingStatus = Upcoming | Active | Completed | Processing | Cancelled

  /** Timestamps are instants counted in milliseconds; only their order matters here. */
  type Instant = int

  datatype Meeting = Meeting(
    id: string,
    name: string,
    userId: string,
    agentId: string,
    status: MeetingStatus,
    startedAt: Option<Instant>,
    endedAt: Option<Instant>,
    transcriptUrl: Option<string>,
    recordingUrl: Option<string>,
    summary: Option<string>,
    createdAt: Instant)

  datatype Agent = Agent(
    id: string,
    name: string,
    userId: string,
    instructions: string,
    createdAt: Instant)

  datatype User = User(id: string, name: string)

  type MeetingTable = map<string, Meeting>
  type AgentTable = map<string, Agent>
  type UserTable = map<string, User>

  /** Primary-key integrity: each row sits under its own id. */
  ghost predicate MeetingsKeyed(m: MeetingTable) {
    forall k :: k in m ==> m[k].id == k
  }

  ghost predicate AgentsKeyed(a: AgentTable) {
    forall k :: k in a ==> a[k].id == k
  }

  ghost predicate UsersKeyed(u: UserTable) {
    forall k :: k in u ==> u[k].id == k
  }

  /** Ids of the meetings a user owns. */
  function OwnedMeetingIds(m: MeetingTable, userId: string): (ids: set<string>)
    ensures ids <= m.Keys
    ensures forall k :: k in ids <==> k in m && m[k].userId == userId
  {
    set k | k in m && m[k].userId == userId
  }

  /** Ids of the agents a user owns. */
  function OwnedAgentIds(a: AgentTable, userId: string): (ids: set<string>)
    ensures ids <= a.Keys
    ensures forall k :: k in ids <==> k in a && a[k].userId == userId
  {
    set k | k in a && a[k].userId == userId
  }

  /** Ids of the meetings (of any owner) that are assigned to an agent. */
  function MeetingIdsOfAgent(m: MeetingTable, agentId: string): (ids: set<string>)
    ensures ids <= m.Keys
    ensures forall k :: k in ids <==> k in m && m[k].agentId == agentId
  {
    set k | k in m && m[k].agentId == agentId
  }

  lemma {:induction false} SubsetCard<T>(a: set<T>, b: set<T>)
    requires a <= b
    ensures |a| <= |b|
    decreases |b|
  {
    if a != {} {
      var x :| x in a;
      SubsetCard(a - {x}, b - {x});
    }
  }

  /** The application's database: three tables updated in place. */
  class Database {
    var meetings: MeetingTable
    var agents: AgentTable
    var users: UserTable

    ghost predicate Valid()
      reads this
    {
      MeetingsKeyed(meetings) && AgentsKeyed(agents) && UsersKeyed(users)
    }

    constructor (meetings: MeetingTable, agents: AgentTable, users: UserTable)
      requires MeetingsKeyed(meetings) && AgentsKeyed(agents) && UsersKeyed(users)
      ensures Valid()
      ensures this.meetings == meetings && this.agents == agents && this.users == users
    {
      this.meetings := meetings;
      this.agents := agents;
      this.users := users;
    }
  }
}
