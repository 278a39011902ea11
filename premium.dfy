/**
 * `premiumRouter.getFreeUsage`: nothing for a subscriber, otherwise how many
 * meetings and agents the caller owns; and how the other operations move
 * those counts.
 */
module Premium {
  import opened Schema
  import Meetings
  import Agents
  import Webhook

  /** The free-tier usage the procedure reports. */
  datatype FreeUsage = FreeUsage(meetingCount: nat, agentCount: nat)

  /**
   * `activeSubscriptions` stands for the billing provider's answer for the
   * caller; only whether it has a first element matters.
   */
  function GetFreeUsage<S>(meetings: MeetingTable, agents: AgentTable, caller: string, activeSubscriptions: seq<S>)
    : (r: Option<FreeUsage>)
    ensures r.None? <==> |activeSubscriptions| > 0
    ensures r.Some? ==> r.value.meetingCount == |set k | k in meetings && meetings[k].userId == caller|
    ensures r.Some? ==> r.value.agentCount == |set k | k in agents && agents[k].userId == caller|
  {
    if |activeSubscriptions| > 0 then None
    else
      assert OwnedMeetingIds(meetings, caller) == set k | k in meetings && meetings[k].userId == caller;
      assert OwnedAgentIds(agents, caller) == set k | k in agents && agents[k].userId == caller;
      Some(FreeUsage(|OwnedMeetingIds(meetings, caller)|, |OwnedAgentIds(agents, caller)|))
  }

  /** Creating a meeting adds one to its creator's count and nothing to anyone else's. */
  lemma {:induction false} MeetingCreateCounts(meetings: MeetingTable, caller: string, input: Meetings.MeetingInsert,
                                               id: string, now: Instant, user: string)
    requires id !in meetings
    ensures var after := meetings[id := Meetings.NewMeeting(caller, input, id, now)];
            |OwnedMeetingIds(after, user)| == |OwnedMeetingIds(meetings, user)| + (if user == caller then 1 else 0)
  {
    var after := meetings[id := Meetings.NewMeeting(caller, input, id, now)];
    if user == caller {
      assert OwnedMeetingIds(after, user) == OwnedMeetingIds(meetings, user) + {id};
    } else {
      assert OwnedMeetingIds(after, user) == OwnedMeetingIds(meetings, user);
    }
  }

  /** Creating an agent adds one to its creator's count and nothing to anyone else's. */
  lemma {:induction false} AgentCreateCounts(agents: AgentTable, caller: string, input: Agents.AgentInsert,
                                             id: string, now: Instant, user: string)
    requires id !in agents
    ensures var after := agents[id := Agents.NewAgent(caller, input, id, now)];
            |OwnedAgentIds(after, user)| == |OwnedAgentIds(agents, user)| + (if user == caller then 1 else 0)
  {
    var after := agents[id := Agents.NewAgent(caller, input, id, now)];
    if user == caller {
      assert OwnedAgentIds(after, user) == OwnedAgentIds(agents, user) + {id};
    } else {
      assert OwnedAgentIds(after, user) == OwnedAgentIds(agents, user);
    }
  }

  /** Removing one's own agent takes one from one's count and nothing from anyone else's. */
  lemma {:induction false} AgentRemoveCounts(agents: AgentTable, caller: string, id: string, user: string)
    requires Agents.OwnedBy(agents, id, caller)
    ensures |OwnedAgentIds(agents - {id}, user)| == |OwnedAgentIds(agents, user)| - (if user == caller then 1 else 0)
  {
    if user == caller {
      assert OwnedAgentIds(agents - {id}, user) == OwnedAgentIds(agents, user) - {id};
    } else {
      assert OwnedAgentIds(agents - {id}, user) == OwnedAgentIds(agents, user);
    }
  }

  /** No webhook request changes anyone's free usage. */
  lemma {:induction false} WebhookKeepsUsage<S>(meetings: MeetingTable, agents: AgentTable, req: Webhook.Request,
                                                verify: (string, string) -> bool,
                                                parse: string -> Option<Webhook.Payload>, now: Instant,
                                                user: string, activeSubscriptions: seq<S>)
    ensures var o := Webhook.Handle(meetings, agents, req, verify, parse, now);
            GetFreeUsage(o.meetings, agents, user, activeSubscriptions) ==
            GetFreeUsage(meetings, agents, user, activeSubscriptions)
  {
    var o := Webhook.Handle(meetings, agents, req, verify, parse, now);
    Webhook.HandleIsLifecycleStep(meetings, agents, req, verify, parse, now);
    assert OwnedMeetingIds(o.meetings, user) == OwnedMeetingIds(meetings, user);
  }
}
