/**
 * The Stream Video webhook endpoint (`POST /api/webhook`).
 *
 * A request is gated in order: both headers present, then the signature
 * accepted by the SDK, then the body parsed as JSON. The event `type` then
 * selects one handler, which applies a guarded update to the meetings table
 * and may call back into Stream. `Handle` is the specification: it returns
 * the response, the new meetings table and the Stream calls made, in order.
 * `Post` is the handler itself, over the database object and a log of calls.
 */
module Webhook {
  import opened Schema
  import opened Text

  datatype Request = Request(signature: Option<string>, apiKey: Option<string>, body: string)

  /**
   * The fields of a parsed event the handlers read: `type`,
   * `call.custom.meetingId`, `call_cid`, `call_transcription.url` and
   * `call_recording.url`.
   */
  datatype Payload = Payload(
    eventType: Option<string>,
    callMeetingId: Option<string>,
    callCid: string,
    transcriptionUrl: string,
    recordingUrl: string)

  /** Calls into the Stream SDK. */
  datatype StreamCall =
    | VerifyWebhook(body: string, signature: string)
    | ConnectOpenAi(callId: string, agentUserId: string)
    | UpdateSession(instructions: string)
    | EndCall(callId: string)

  /** An HTTP status with either `{ status: "ok" }` (no error) or `{ error }`. */
  datatype Response = Response(status: int, error: Option<string>)

  /** The response, the meetings table afterwards, and the Stream calls made. */
  datatype Outcome = Outcome(response: Response, meetings: MeetingTable, calls: seq<StreamCall>)

  const SESSION_STARTED := "call.session_started"
  const PARTICIPANT_LEFT := "call.session_participant_left"
  const SESSION_ENDED := "call.session_ended"
  const TRANSCRIPTION_READY := "call.transcription_ready"
  const RECORDING_READY := "call.recording_ready"

  const MISSING_HEADERS := "Missing signature or apikey"
  const INVALID_SIGNATURE := "Invalid signature"
  const INVALID_PAYLOAD := "Invalid payload"
  const MISSING_MEETING_ID := "Missing meetingId"
  const MEETING_NOT_FOUND := "Meeting not found"
  const AGENT_NOT_FOUND := "Agent not found"

  const OK := Response(200, None)

  /** `!signature || !apikey` fails: both headers are there and non-empty. */
  predicate HeadersPresent(req: Request)
    ensures HeadersPresent(req) ==> req.signature.Some? && req.apiKey.Some?
    ensures !HeadersPresent(req) <==>
              req.signature in {None, Some("")} || req.apiKey in {None, Some("")}
  {
    Truthy(req.signature) && Truthy(req.apiKey)
  }

  /** The session-start guard: status is none of completed, active, cancelled, processing. */
  predicate CanStart(s: MeetingStatus) {
    s != Completed && s != Active && s != Cancelled && s != Processing
  }

  lemma CanStartOnlyUpcoming(s: MeetingStatus)
    ensures CanStart(s) <==> s == Upcoming
  {
  }

  /** `call.session_started`: activate an upcoming meeting, then connect its agent. */
  function SessionStarted(meetings: MeetingTable, agents: AgentTable, meetingId: Option<string>, now: Instant): (o: Outcome)
    ensures !Truthy(meetingId) ==> o == Outcome(Response(400, Some(MISSING_MEETING_ID)), meetings, [])
    ensures Truthy(meetingId) && !(meetingId.value in meetings && meetings[meetingId.value].status == Upcoming) ==>
              o == Outcome(Response(404, Some(MEETING_NOT_FOUND)), meetings, [])
    ensures Truthy(meetingId) && meetingId.value in meetings && meetings[meetingId.value].status == Upcoming ==>
              var id := meetingId.value;
              var m := meetings[id];
              && o.meetings == meetings[id := m.(status := Active, startedAt := Some(now))]
              && (m.agentId !in agents ==> o.response == Response(404, Some(AGENT_NOT_FOUND)) && o.calls == [])
              && (m.agentId in agents ==>
                    o.response == OK &&
                    o.calls == [ConnectOpenAi(id, agents[m.agentId].id), UpdateSession(agents[m.agentId].instructions)])
  {
    if !Truthy(meetingId) then
      Outcome(Response(400, Some(MISSING_MEETING_ID)), meetings, [])
    else
      var id := meetingId.value;
      if !(id in meetings && CanStart(meetings[id].status)) then
        Outcome(Response(404, Some(MEETING_NOT_FOUND)), meetings, [])
      else
        var existing := meetings[id];
        var started := meetings[id := existing.(status := Active, startedAt := Some(now))];
        if existing.agentId !in agents then
          Outcome(Response(404, Some(AGENT_NOT_FOUND)), started, [])
        else
          var agent := agents[existing.agentId];
          Outcome(OK, started, [ConnectOpenAi(id, agent.id), UpdateSession(agent.instructions)])
  }

  /** `call.session_participant_left`: end the call named by the cid; no row changes. */
  function ParticipantLeft(meetings: MeetingTable, callCid: string): (o: Outcome)
    ensures o.meetings == meetings
    ensures !Truthy(CallCidId(callCid)) ==> o.response == Response(400, Some(MISSING_MEETING_ID)) && o.calls == []
    ensures Truthy(CallCidId(callCid)) ==> o.response == OK && o.calls == [EndCall(CallCidId(callCid).value)]
  {
    var meetingId := CallCidId(callCid);
    if !Truthy(meetingId) then
      Outcome(Response(400, Some(MISSING_MEETING_ID)), meetings, [])
    else
      Outcome(OK, meetings, [EndCall(meetingId.value)])
  }

  /** `call.session_ended`: the update guarded by `status = 'active'`. */
  function SessionEnded(meetings: MeetingTable, meetingId: Option<string>, now: Instant): (o: Outcome)
    ensures o.calls == []
    ensures !Truthy(meetingId) ==> o.response == Response(400, Some(MISSING_MEETING_ID)) && o.meetings == meetings
    ensures Truthy(meetingId) ==> o.response == OK
    ensures o.meetings.Keys == meetings.Keys
    ensures forall k :: k in meetings && o.meetings[k] != meetings[k] ==>
              Truthy(meetingId) && k == meetingId.value && meetings[k].status == Active
    ensures Truthy(meetingId) && meetingId.value in meetings && meetings[meetingId.value].status == Active ==>
              o.meetings[meetingId.value] == meetings[meetingId.value].(status := Processing, endedAt := Some(now))
  {
    if !Truthy(meetingId) then
      Outcome(Response(400, Some(MISSING_MEETING_ID)), meetings, [])
    else
      var id := meetingId.value;
      if id in meetings && meetings[id].status == Active then
        Outcome(OK, meetings[id := meetings[id].(status := Processing, endedAt := Some(now))], [])
      else
        Outcome(OK, meetings, [])
  }

  /**
   * `call.transcription_ready`: set `transcriptUrl` on the row named by the
   * cid, whatever its status; 404 when no row matched. An undefined id
   * matches no row.
   */
  function TranscriptionReady(meetings: MeetingTable, callCid: string, url: string): (o: Outcome)
    ensures o.calls == []
    ensures o.meetings.Keys == meetings.Keys
    ensures (o.response == OK) <==> CallCidId(callCid).Some? && CallCidId(callCid).value in meetings
    ensures o.response != OK ==> o.response == Response(404, Some(MEETING_NOT_FOUND))
    ensures forall k :: k in meetings && CallCidId(callCid) != Some(k) ==> o.meetings[k] == meetings[k]
    ensures forall k :: k in meetings && CallCidId(callCid) == Some(k) ==>
              o.meetings[k].transcriptUrl == Some(url) &&
              o.meetings[k].(transcriptUrl := meetings[k].transcriptUrl) == meetings[k]
  {
    var id := CallCidId(callCid);
    if id.Some? && id.value in meetings then
      Outcome(OK, meetings[id.value := meetings[id.value].(transcriptUrl := Some(url))], [])
    else
      Outcome(Response(404, Some(MEETING_NOT_FOUND)), meetings, [])
  }

  /** `call.recording_ready`: like the transcription, but never a 404. */
  function RecordingReady(meetings: MeetingTable, callCid: string, url: string): (o: Outcome)
    ensures o.calls == [] && o.response == OK
    ensures o.meetings.Keys == meetings.Keys
    ensures forall k :: k in meetings && CallCidId(callCid) != Some(k) ==> o.meetings[k] == meetings[k]
    ensures forall k :: k in meetings && CallCidId(callCid) == Some(k) ==>
              o.meetings[k].recordingUrl == Some(url) &&
              o.meetings[k].(recordingUrl := meetings[k].recordingUrl) == meetings[k]
  {
    var id := CallCidId(callCid);
    if id.Some? && id.value in meetings then
      Outcome(OK, meetings[id.value := meetings[id.value].(recordingUrl := Some(url))], [])
    else
      Outcome(OK, meetings, [])
  }

  predicate KnownEvent(t: Option<string>) {
    t == Some(SESSION_STARTED) || t == Some(PARTICIPANT_LEFT) || t == Some(SESSION_ENDED) ||
    t == Some(TRANSCRIPTION_READY) || t == Some(RECORDING_READY)
  }

  /** Exactly one handler per event type; any other type is acknowledged and ignored. */
  function Dispatch(meetings: MeetingTable, agents: AgentTable, p: Payload, now: Instant): (o: Outcome)
    ensures !KnownEvent(p.eventType) ==> o == Outcome(OK, meetings, [])
  {
    if p.eventType == Some(SESSION_STARTED) then SessionStarted(meetings, agents, p.callMeetingId, now)
    else if p.eventType == Some(PARTICIPANT_LEFT) then ParticipantLeft(meetings, p.callCid)
    else if p.eventType == Some(SESSION_ENDED) then SessionEnded(meetings, p.callMeetingId, now)
    else if p.eventType == Some(TRANSCRIPTION_READY) then TranscriptionReady(meetings, p.callCid, p.transcriptionUrl)
    else if p.eventType == Some(RECORDING_READY) then RecordingReady(meetings, p.callCid, p.recordingUrl)
    else Outcome(OK, meetings, [])
  }

  /**
   * The whole request. `verify` is the SDK's signature check over the raw
   * body; `parse` is `JSON.parse`, None when it throws.
   */
  function Handle(meetings: MeetingTable, agents: AgentTable, req: Request,
                  verify: (string, string) -> bool, parse: string -> Option<Payload>, now: Instant): (o: Outcome)
    ensures !HeadersPresent(req) ==>
              o == Outcome(Response(400, Some(MISSING_HEADERS)), meetings, [])
    ensures HeadersPresent(req) && !verify(req.body, req.signature.value) ==>
              o == Outcome(Response(401, Some(INVALID_SIGNATURE)), meetings, [VerifyWebhook(req.body, req.signature.value)])
    ensures HeadersPresent(req) && verify(req.body, req.signature.value) && parse(req.body).None? ==>
              o == Outcome(Response(400, Some(INVALID_PAYLOAD)), meetings, [VerifyWebhook(req.body, req.signature.value)])
    ensures HeadersPresent(req) && verify(req.body, req.signature.value) && parse(req.body).Some? ==>
              var d := Dispatch(meetings, agents, parse(req.body).value, now);
              o == Outcome(d.response, d.meetings, [VerifyWebhook(req.body, req.signature.value)] + d.calls)
  {
    if !HeadersPresent(req) then
      Outcome(Response(400, Some(MISSING_HEADERS)), meetings, [])
    else
      var signature := req.signature.value;
      var checked := [VerifyWebhook(req.body, signature)];
      if !verify(req.body, signature) then
        Outcome(Response(401, Some(INVALID_SIGNATURE)), meetings, checked)
      else
        match parse(req.body)
        case None => Outcome(Response(400, Some(INVALID_PAYLOAD)), meetings, checked)
        case Some(p) =>
          var d := Dispatch(meetings, agents, p, now);
          Outcome(d.response, d.meetings, checked + d.calls)
  }

  // ---------------------------------------------------------------------
  // Properties of the lifecycle

  /**
   * How one webhook request may change one meeting: identity, owner, agent,
   * creation time and summary stay; the status stays or moves one step
   * along upcoming -> active -> processing; startedAt changes only on
   * entering active, endedAt only on entering processing; URLs, once set,
   * stay set.
   */
  ghost predicate WebhookStep(a: Meeting, b: Meeting) {
    && b.id == a.id && b.name == a.name && b.userId == a.userId && b.agentId == a.agentId
    && b.createdAt == a.createdAt && b.summary == a.summary
    && (b.status == a.status || (a.status == Upcoming && b.status == Active) ||
        (a.status == Active && b.status == Processing))
    && (b.startedAt != a.startedAt ==> a.status == Upcoming && b.status == Active)
    && (b.endedAt != a.endedAt ==> a.status == Active && b.status == Processing)
    && (a.transcriptUrl.Some? ==> b.transcriptUrl.Some?)
    && (a.recordingUrl.Some? ==> b.recordingUrl.Some?)
  }

  /** A request never adds or removes meetings, changes at most one, and only by a WebhookStep. */
  lemma {:induction false} HandleIsLifecycleStep(meetings: MeetingTable, agents: AgentTable, req: Request,
                                                 verify: (string, string) -> bool, parse: string -> Option<Payload>,
                                                 now: Instant)
    ensures var o := Handle(meetings, agents, req, verify, parse, now);
            && o.meetings.Keys == meetings.Keys
            && (forall k :: k in meetings ==> WebhookStep(meetings[k], o.meetings[k]))
            && (forall k, k' ::
                  (k in meetings && k' in meetings && o.meetings[k] != meetings[k] && o.meetings[k'] != meetings[k'])
                  ==> k == k')
  {
    var o := Handle(meetings, agents, req, verify, parse, now);
    if HeadersPresent(req) && verify(req.body, req.signature.value) && parse(req.body).Some? {
      var p := parse(req.body).value;
      var d := Dispatch(meetings, agents, p, now);
      assert o.meetings == d.meetings;
      if p.eventType == Some(SESSION_STARTED) {
        var r := SessionStarted(meetings, agents, p.callMeetingId, now);
        assert d == r;
      }
    }
  }

  /** The agent is connected only after a confirmed upcoming -> active transition. */
  lemma {:induction false} ConnectOnlyAfterActivation(meetings: MeetingTable, agents: AgentTable, req: Request,
                                                      verify: (string, string) -> bool,
                                                      parse: string -> Option<Payload>, now: Instant,
                                                      callId: string, agentUserId: string)
    requires ConnectOpenAi(callId, agentUserId) in Handle(meetings, agents, req, verify, parse, now).calls
    ensures var o := Handle(meetings, agents, req, verify, parse, now);
            && callId in meetings && meetings[callId].status == Upcoming
            && o.meetings[callId].status == Active
            && o.response == OK
            && meetings[callId].agentId in agents && agents[meetings[callId].agentId].id == agentUserId
  {
    var p := parse(req.body).value;
    assert p.eventType == Some(SESSION_STARTED);
  }

  /** A second identical `session_started` finds no startable meeting: 404 and no agent connection. */
  lemma {:induction false} SessionStartedRedelivery(meetings: MeetingTable, agents: AgentTable, id: string, now: Instant, later: Instant)
    requires id != ""
    ensures var first := SessionStarted(meetings, agents, Some(id), now);
            var second := SessionStarted(first.meetings, agents, Some(id), later);
            second == Outcome(Response(404, Some(MEETING_NOT_FOUND)), first.meetings, [])
  {
  }

  /** A second identical `session_ended` changes nothing more. */
  lemma {:induction false} SessionEndedIdempotent(meetings: MeetingTable, id: Option<string>, now: Instant, later: Instant)
    ensures var first := SessionEnded(meetings, id, now);
            SessionEnded(first.meetings, id, later) == Outcome(first.response, first.meetings, [])
  {
  }

  /** Redelivering a URL event leaves the table as the first delivery left it. */
  lemma {:induction false} UrlEventsIdempotent(meetings: MeetingTable, cid: string, url: string)
    ensures var t := TranscriptionReady(meetings, cid, url);
            TranscriptionReady(t.meetings, cid, url) == t
    ensures var r := RecordingReady(meetings, cid, url);
            RecordingReady(r.meetings, cid, url) == r
  {
  }

  /** A completed or cancelled meeting is final as far as the webhook is concerned. */
  lemma {:induction false} FinalStatusesStay(meetings: MeetingTable, agents: AgentTable, req: Request,
                                             verify: (string, string) -> bool, parse: string -> Option<Payload>,
                                             now: Instant, id: string)
    requires id in meetings && meetings[id].status in {Completed, Cancelled}
    ensures Handle(meetings, agents, req, verify, parse, now).meetings[id].status == meetings[id].status
  {
    HandleIsLifecycleStep(meetings, agents, req, verify, parse, now);
  }

  // ---------------------------------------------------------------------
  // The handler

  /** The log of calls made to the Stream SDK. */
  class StreamClient {
    var calls: seq<StreamCall>

    constructor ()
      ensures calls == []
    {
      calls := [];
    }
  }

  /** The meeting with this id whose status passes the session-start guard, if any. */
  function SelectStartable(meetings: MeetingTable, id: string): (r: Option<Meeting>)
    ensures r.Some? <==> id in meetings && CanStart(meetings[id].status)
    ensures r.Some? ==> r.value == meetings[id]
  {
    if id in meetings && CanStart(meetings[id].status) then Some(meetings[id]) else None
  }

  /**
   * The route handler: early returns in the order of the source, a select
   * then an update for `session_started`, guarded updates for the others.
   */
  method Post(db: Database, stream: StreamClient, req: Request,
              verify: (string, string) -> bool, parse: string -> Option<Payload>, now: Instant)
    returns (resp: Response)
    requires db.Valid()
    modifies db`meetings, stream
    ensures db.Valid()
    ensures var o := Handle(old(db.meetings), db.agents, req, verify, parse, now);
            resp == o.response && db.meetings == o.meetings && stream.calls == old(stream.calls) + o.calls
  {
    if !Truthy(req.signature) || !Truthy(req.apiKey) {
      return Response(400, Some(MISSING_HEADERS));
    }
    var body := req.body;
    var signature := req.signature.value;
    stream.calls := stream.calls + [VerifyWebhook(body, signature)];
    if !verify(body, signature) {
      return Response(401, Some(INVALID_SIGNATURE));
    }
    var parsed := parse(body);
    if parsed.None? {
      return Response(400, Some(INVALID_PAYLOAD));
    }
    var payload := parsed.value;
    var eventType := payload.eventType;

    if eventType == Some(SESSION_STARTED) {
      var meetingId := payload.callMeetingId;
      if !Truthy(meetingId) {
        return Response(400, Some(MISSING_MEETING_ID));
      }
      var existing := SelectStartable(db.meetings, meetingId.value);
      if existing.None? {
        return Response(404, Some(MEETING_NOT_FOUND));
      }
      var row := existing.value;
      db.meetings := db.meetings[row.id := row.(status := Active, startedAt := Some(now))];
      if row.agentId !in db.agents {
        return Response(404, Some(AGENT_NOT_FOUND));
      }
      var agent := db.agents[row.agentId];
      stream.calls := stream.calls + [ConnectOpenAi(meetingId.value, agent.id)];
      stream.calls := stream.calls + [UpdateSession(agent.instructions)];
    } else if eventType == Some(PARTICIPANT_LEFT) {
      var meetingId := CallCidId(payload.callCid);
      if !Truthy(meetingId) {
        return Response(400, Some(MISSING_MEETING_ID));
      }
      stream.calls := stream.calls + [EndCall(meetingId.value)];
    } else if eventType == Some(SESSION_ENDED) {
      var meetingId := payload.callMeetingId;
      if !Truthy(meetingId) {
        return Response(400, Some(MISSING_MEETING_ID));
      }
      var id := meetingId.value;
      if id in db.meetings && db.meetings[id].status == Active {
        db.meetings := db.meetings[id := db.meetings[id].(status := Processing, endedAt := Some(now))];
      }
    } else if eventType == Some(TRANSCRIPTION_READY) {
      var meetingId := CallCidId(payload.callCid);
      var updated := false;
      if meetingId.Some? && meetingId.value in db.meetings {
        var id := meetingId.value;
        db.meetings := db.meetings[id := db.meetings[id].(transcriptUrl := Some(payload.transcriptionUrl))];
        updated := true;
      }
      if !updated {
        return Response(404, Some(MEETING_NOT_FOUND));
      }
    } else if eventType == Some(RECORDING_READY) {
      var meetingId := CallCidId(payload.callCid);
      if meetingId.Some? && meetingId.value in db.meetings {
        var id := meetingId.value;
        db.meetings := db.meetings[id := db.meetings[id].(recordingUrl := Some(payload.recordingUrl))];
      }
    }
    return OK;
  }
}
