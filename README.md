# Meet.AI server core in Dafny

Meet.AI lets a user create AI agents (a name and instructions) and schedule
video meetings with one of them. This project is a model of the
server-side rules behind that, with proofs about them:

- **The Stream Video webhook** (`POST /api/webhook`). A request is gated in
  order: both headers present, then the SDK's signature check, then the
  body parsed as JSON. The event type then selects a handler:
  - `call.session_started` moves an upcoming meeting to `active` and then
    connects its agent;
  - `call.session_participant_left` ends the call;
  - `call.session_ended` moves an active meeting to `processing`;
  - `call.transcription_ready` and `call.recording_ready` store a URL.

  The meeting id is either `call.custom.meetingId` or the second
  `:`-segment of `call_cid`. A meeting's status is one of upcoming, active,
  completed, processing or cancelled (the five statuses of
  `src/modules/meetings/ui/components/columns.tsx:28-34`).
- **The `meetings/processing` job.** It collects the transcript's distinct
  speaker ids, looks them up among users and then agents, and attaches each
  item's speaker name, falling back to "Unknown". It then saves the
  summary and sets the meeting to `completed`.
- **The meetings and agents procedures.** `update`, `remove` and `getOne`
  are scoped to the caller, and `create` stamps the caller as owner.
  `getMany` filters by owner and a case-insensitive name search, orders by
  `createdAt DESC, id DESC`, and returns one page with `total` and
  `totalPages`.
- **`getFreeUsage`.** Nothing for a subscriber; otherwise the caller's
  meeting and agent counts.

Structure:

- Tables are maps from primary key to row. `Schema.Database` is the
  database object the procedures, the webhook and the job update in place.
- Each imperative handler (`Webhook.Post`, `Meetings.Update`,
  `Agents.Remove`, …) is a method over that object. Its postcondition ties
  the new state to a pure function: `Webhook.Handle`, the table update, or
  the `getOne` that must see the change. The properties are proved of those
  functions.
- External services are parameters:
  - the signature check is `verify: (string, string) -> bool`;
  - `JSON.parse` is `parse: string -> Option<Payload>`;
  - the summariser is `summarize`;
  - the billing provider's active subscriptions are a sequence;
  - the clock is `now`;
  - the id a row gets at insert is a parameter the caller supplies fresh.
- Calls into the Stream SDK are appended, in order, to
  `Webhook.StreamClient.calls`.
- SQL queries are modelled on sets of ids:
  - `ORDER BY createdAt DESC, id DESC` is `Paging.SortIds`, with ids
    compared code point by code point (`Text.StrLess`);
  - `LIMIT/OFFSET` is `Paging.PageSlice`;
  - `Math.ceil(total / pageSize)` is `Paging.TotalPages`.
- The row order of `select ... where id in (...)` is the database's. The
  speaker join is proved for every order (`Processing.EnrichResolvesNames`).

Files:

- `schema.dfy`: rows, results, the database object.
- `text.dfy`: ASCII case folding, substring, `split`/`join`, string order.
- `paging.dfy`: input validation, search filter, order, page slice, page
  count.
- `webhook.dfy`: the webhook.
- `processing.dfy`: the job.
- `meetings.dfy` and `agents.dfy`: the two routers.
- `premium.dfy`: free usage, and how the other operations move it.

Points where the code behaves unexpectedly; the model follows the code:

- the `x-api-key` header is only checked for presence;
- `call.transcription_ready` does not start the processing job; there is
  only a TODO at `src/app/api/webhook/route.ts:185`;
- `meetings.getOne` reports a missing meeting with the message
  "Agent not found".

## Model

| member | source | states |
|---|---|---|
| Schema.OwnedMeetingIds | src/modules/premium/server/procedures.ts:25-32 | exactly the ids of the meetings whose userId is the user |
| Schema.OwnedAgentIds | src/modules/premium/server/procedures.ts:34-41 | exactly the ids of the agents whose userId is the user |
| Schema.MeetingIdsOfAgent | src/modules/agents/server/procedures.ts:61 | exactly the ids of the meetings, of any owner, whose agentId is the agent's id |
| Schema.Truthy | src/app/api/webhook/route.ts:65-70 | `!meetingId` (and the listings' `search ? … : undefined`): a value is falsy exactly when it is undefined or the empty string |
| Text.IsSubstring | src/modules/meetings/server/procedures.ts:101 | true exactly when p occurs in s at some position |
| Text.ContainsIgnoreCase | src/modules/meetings/server/procedures.ts:101 | `ilike(name, '%search%')`: true exactly when the lower-cased search occurs in the lower-cased name |
| Text.ContainsIgnoreCaseEmpty | src/modules/meetings/server/procedures.ts:101 | the empty search matches every name |
| Text.ContainsIgnoresNameCase | src/modules/agents/server/procedures.ts:103 | the match does not depend on the letter case of the name |
| Text.StrLessIrreflexive | src/modules/meetings/server/procedures.ts:104 | no id sorts before itself |
| Text.StrLessTransitive | src/modules/meetings/server/procedures.ts:104 | the id order is transitive |
| Text.StrLessTotal | src/modules/meetings/server/procedures.ts:104 | any two different ids are ordered one way or the other |
| Text.StrLessAsymmetric | src/modules/agents/server/procedures.ts:106 | two ids are never ordered both ways |
| Text.Split | src/app/api/webhook/route.ts:128 | `split(":")` yields at least one part and no part holds the separator |
| Text.SplitJoin | src/app/api/webhook/route.ts:128 | joining the parts with the separator gives the string back |
| Text.SplitNoSeparator | src/app/api/webhook/route.ts:166 | a string without the separator splits into itself alone |
| Text.SplitAfterFirstSeparator | src/app/api/webhook/route.ts:189 | a separator-free prefix becomes the first part and the rest splits on its own |
| Text.CallCidId | src/app/api/webhook/route.ts:128 | `call_cid.split(":")[1]` is undefined exactly when the cid holds no colon |
| Text.CallCidIdOfTypeAndId | src/app/api/webhook/route.ts:128 | the cid `type:id` yields `id` when neither part holds a colon |
| Text.CallCidIdShape | src/app/api/webhook/route.ts:166 | a defined id holds no colon and is exactly the text between the cid's first colon and the next colon or the end |
| Text.StrLess | src/modules/meetings/server/procedures.ts:104 | the `desc(id)` comparison: never between equal ids, a proper prefix sorts first, a smaller first character sorts first, and a larger first character never does |
| Paging.ValidateListInput | src/modules/meetings/server/procedures.ts:76-84 | accepted exactly when page >= 1 and MIN_PAGE_SIZE <= pageSize <= MAX_PAGE_SIZE after the defaults are applied; otherwise BAD_REQUEST (its message a placeholder); the accepted values are the input's or the defaults |
| Paging.MatchesSearch | src/modules/agents/server/procedures.ts:103 | an absent or empty search keeps every name; otherwise a name is kept exactly when the lower-cased search occurs in it, lower-cased |
| Paging.EmptySearchMatchesAll | src/modules/meetings/server/procedures.ts:101 | an absent or empty search filters nothing |
| Paging.Before | src/modules/agents/server/procedures.ts:106 | `ORDER BY createdAt DESC, id DESC`: a newer row comes first; between equal times the larger id comes first; a row never comes before itself |
| Paging.BeforeTransitive | src/modules/meetings/server/procedures.ts:104 | the (createdAt DESC, id DESC) order is transitive |
| Paging.BeforeTotal | src/modules/meetings/server/procedures.ts:104 | two rows with different ids are always ordered |
| Paging.BeforeAsymmetric | src/modules/agents/server/procedures.ts:106 | two rows are never ordered both ways |
| Paging.SortedIdsDistinct | src/modules/meetings/server/procedures.ts:104 | an ordered result lists no row twice |
| Paging.InsertId | src/modules/meetings/server/procedures.ts:104 | inserting a new id keeps the sequence ordered and adds exactly that id |
| Paging.SortIds | src/modules/meetings/server/procedures.ts:104 | ORDER BY: every selected row exactly once, strictly in (createdAt DESC, id DESC) order |
| Paging.PageOffset | src/modules/meetings/server/procedures.ts:106 | `(page - 1) * pageSize`: zero exactly on page 1, and at least a full page after it |
| Paging.PageOffsetNext | src/modules/agents/server/procedures.ts:108 | each page starts pageSize rows after the one before it |
| Paging.PageSlice | src/modules/meetings/server/procedures.ts:105-106 | at most pageSize rows, the rows from offset (page-1)*pageSize on, and as many as remain up to pageSize |
| Paging.PageOfIds | src/modules/agents/server/procedures.ts:106-108 | a page holds only selected rows, in order, at its offset of the ordered result, and is full unless it is the last |
| Paging.SliceOfSorted | src/modules/meetings/server/procedures.ts:104-106 | a page of an ordered result is ordered |
| Paging.TotalPages | src/modules/meetings/server/procedures.ts:119 | `Math.ceil(total / pageSize)`: the fewest pages that hold total rows |
| Paging.NoRowsNoPages | src/modules/agents/server/procedures.ts:120 | no rows means zero pages |
| Paging.PagesUpToIsPrefix | src/modules/meetings/server/procedures.ts:105-106 | pages 1..n together are the first n*pageSize rows |
| Paging.PagesCoverRows | src/modules/meetings/server/procedures.ts:105-119 | reading pages 1..totalPages returns every row once, in order |
| Paging.PagePastLastIsEmpty | src/modules/agents/server/procedures.ts:107-120 | a page after totalPages is empty |
| Webhook.HeadersPresent | src/app/api/webhook/route.ts:28-36 | the 400 gate `!signature or !apikey` passes exactly when neither header is absent or empty |
| Webhook.CanStartOnlyUpcoming | src/app/api/webhook/route.ts:78-81 | the four negated status tests let through exactly the upcoming status |
| Webhook.SessionStarted | src/app/api/webhook/route.ts:61-123 | 400 without a meetingId; 404 and no change unless the meeting exists and is upcoming; otherwise it becomes active with startedAt = now, and then either 404 "Agent not found" with the meeting left active, or the agent is connected and its instructions sent |
| Webhook.ParticipantLeft | src/app/api/webhook/route.ts:125-138 | no meeting changes; 400 without an id in the cid, otherwise the call is ended |
| Webhook.SessionEnded | src/app/api/webhook/route.ts:140-163 | 400 without a meetingId; otherwise ok, and only that meeting changes, only if it is active, to processing with endedAt = now |
| Webhook.TranscriptionReady | src/app/api/webhook/route.ts:164-185 | only the row named by the cid changes, only its transcriptUrl, whatever its status; 404 exactly when no row matched |
| Webhook.RecordingReady | src/app/api/webhook/route.ts:187-199 | only the row named by the cid changes, only its recordingUrl; always ok |
| Webhook.Dispatch | src/app/api/webhook/route.ts:59-202 | an unrecognised event type is ok and changes and calls nothing |
| Webhook.Handle | src/app/api/webhook/route.ts:26-203 | missing header: 400, no call, no change; bad signature: 401 after the check only; bad JSON: 400 after the check only; otherwise the event's handler, after the signature check |
| Webhook.HandleIsLifecycleStep | src/app/api/webhook/route.ts:61-199 | no request adds or removes a meeting or changes more than one; a change keeps identity, owner, agent and summary, moves the status at most one step along upcoming -> active -> processing, and never unsets a URL |
| Webhook.ConnectOnlyAfterActivation | src/app/api/webhook/route.ts:93-123 | the agent is connected only for a meeting that was upcoming and is now active, and only with that meeting's agent |
| Webhook.SessionStartedRedelivery | src/app/api/webhook/route.ts:72-91 | a repeated session_started finds no startable meeting: 404, no change, no connection |
| Webhook.SessionEndedIdempotent | src/app/api/webhook/route.ts:152-163 | a repeated session_ended changes nothing more |
| Webhook.UrlEventsIdempotent | src/app/api/webhook/route.ts:164-199 | a repeated URL event leaves the table as the first left it |
| Webhook.FinalStatusesStay | src/app/api/webhook/route.ts:61-199 | no webhook request changes a completed or cancelled meeting's status |
| Webhook.SelectStartable | src/app/api/webhook/route.ts:72-84 | the row is found exactly when it exists and passes the status guard |
| Webhook.Post | src/app/api/webhook/route.ts:26-203 | the handler's response, new meetings table and Stream calls are those of Handle, and the table stays keyed |
| Processing.Distinct | src/app/inngest/functions.ts:55-57 | `[...new Set(xs)]`: no duplicates and exactly the values of xs |
| Processing.SpeakerIdsOf | src/app/inngest/functions.ts:56 | the speaker id of every item, in order |
| Processing.SpeakerIds | src/app/inngest/functions.ts:55-57 | no duplicates and exactly the speaker ids occurring in the transcript |
| Processing.UserNames | src/app/inngest/functions.ts:60-68 | every user's name under its id |
| Processing.AgentNames | src/app/inngest/functions.ts:70-78 | every agent's name under its id |
| Processing.SelectByIds | src/app/inngest/functions.ts:60-78 | `where id in (ids)`: only table rows with listed ids, and all of them |
| Processing.FindSpeaker | src/app/inngest/functions.ts:83-85 | `find`: none exactly when no speaker has the id, else the first that has it |
| Processing.NameFor | src/app/inngest/functions.ts:83-100 | the name of the first speaker with the id, or "Unknown" when no speaker has it |
| Processing.Enrich | src/app/inngest/functions.ts:82-102 | same length and order, every item kept, each name the found speaker's or "Unknown" |
| Processing.FindSpeakerConcat | src/app/inngest/functions.ts:80-85 | searching users followed by agents looks at the agents only when no user matches |
| Processing.FindInSelection | src/app/inngest/functions.ts:60-85 | in a selection, a listed id finds its row exactly when the table has it |
| Processing.FindInUsersThenAgents | src/app/inngest/functions.ts:80-101 | a user's name wins over an agent's, and "Unknown" when neither has the id |
| Processing.EnrichResolvesNames | src/app/inngest/functions.ts:54-103 | for any order of the selected rows: same length and order, items kept, names resolved user first, then agent, else "Unknown" |
| Processing.AddSpeakers | src/app/inngest/functions.ts:54-103 | the add-speakers step: same length and order, items kept, user-then-agent-then-"Unknown" names |
| Processing.SaveSummary | src/app/inngest/functions.ts:110-118 | only that meeting changes, to the summary and status completed, whatever its prior status |
| Processing.MeetingsProcessing | src/app/inngest/functions.ts:44-119 | returns the enriched transcript and saves its summary with status completed on that meeting only |
| Meetings.NewMeeting | src/modules/meetings/server/procedures.ts:38-44 | the input's fields, the caller as owner, status upcoming, no times, links or summary |
| Meetings.Updated | src/modules/meetings/server/procedures.ts:19 | `.set(input)` changes name and agentId and nothing else of the row |
| Meetings.Update | src/modules/meetings/server/procedures.ts:14-33 | the caller's meeting with that id is updated and returned; otherwise NOT_FOUND "Meeting not found" and the table unchanged |
| Meetings.Create | src/modules/meetings/server/procedures.ts:35-49 | exactly one row added, owned by the caller whatever the input, and getOne then returns it |
| Meetings.GetOne | src/modules/meetings/server/procedures.ts:51-72 | the meeting exactly when it exists and the caller owns it; otherwise NOT_FOUND |
| Meetings.MatchingIds | src/modules/meetings/server/procedures.ts:96-103 | exactly the caller's meetings with an existing agent whose name matches the search |
| Meetings.JoinAgents | src/modules/meetings/server/procedures.ts:89-97 | each selected meeting with its joined agent and meetingCount 5 |
| Meetings.MeetingPage | src/modules/meetings/server/procedures.ts:86-125 | at most pageSize items, the caller's, each with its agent and matching the search, strictly newest first, at the page's offset of the ordered result; total counts the same set; totalPages is its ceiling |
| Meetings.GetMany | src/modules/meetings/server/procedures.ts:74-126 | BAD_REQUEST exactly for an invalid input, otherwise the page |
| Meetings.ListingWithinOwned | src/modules/meetings/server/procedures.ts:108-117 | total never exceeds the number of meetings the caller owns |
| Meetings.NoSearchSelectsAll | src/modules/meetings/server/procedures.ts:101 | with no search the listing selects all of the caller's meetings that have an agent |
| Agents.NewAgent | src/modules/agents/server/procedures.ts:131-137 | the input's fields and the caller as owner |
| Agents.Updated | src/modules/agents/server/procedures.ts:19 | `.set(input)` changes name and instructions and nothing else of the row |
| Agents.Detail | src/modules/agents/server/procedures.ts:59-61 | meetingCount counts the meetings assigned to the agent |
| Agents.Update | src/modules/agents/server/procedures.ts:14-33 | the caller's agent with that id is updated and returned; otherwise NOT_FOUND and the table unchanged |
| Agents.Remove | src/modules/agents/server/procedures.ts:35-53 | the caller's agent with that id is deleted and returned, one row fewer, and getOne then fails; otherwise NOT_FOUND and nothing deleted |
| Agents.GetOne | src/modules/agents/server/procedures.ts:54-77 | the agent and the number of meetings assigned to it, exactly when the caller owns it; otherwise NOT_FOUND |
| Agents.Create | src/modules/agents/server/procedures.ts:128-140 | exactly one row added, owned by the caller whatever the input, and getOne then finds it |
| Agents.MatchingIds | src/modules/agents/server/procedures.ts:100-105 | exactly the caller's agents whose name matches the search |
| Agents.WithCounts | src/modules/agents/server/procedures.ts:95-97 | each selected agent with its meeting count |
| Agents.AgentPage | src/modules/agents/server/procedures.ts:91-126 | at most pageSize items, the caller's, matching the search, with their meeting counts, strictly newest first, at the page's offset; total counts the same set; totalPages is its ceiling |
| Agents.GetMany | src/modules/agents/server/procedures.ts:79-127 | BAD_REQUEST exactly for an invalid input, otherwise the page |
| Agents.ListingWithinOwned | src/modules/agents/server/procedures.ts:110-118 | total never exceeds the number of agents the caller owns |
| Agents.NoSearchSelectsAll | src/modules/agents/server/procedures.ts:103 | with no search the listing selects all of the caller's agents |
| Premium.GetFreeUsage | src/modules/premium/server/procedures.ts:13-47 | null exactly when there is an active subscription, otherwise the number of meetings and of agents the caller owns |
| Premium.MeetingCreateCounts | src/modules/premium/server/procedures.ts:25-32 | creating a meeting adds one to its owner's meetingCount and nothing to anyone else's |
| Premium.AgentCreateCounts | src/modules/premium/server/procedures.ts:34-41 | creating an agent adds one to its owner's agentCount and nothing to anyone else's |
| Premium.AgentRemoveCounts | src/modules/premium/server/procedures.ts:34-41 | removing one's agent takes one from one's agentCount and nothing from anyone else's |
| Premium.WebhookKeepsUsage | src/modules/premium/server/procedures.ts:25-45 | no webhook request changes anyone's free usage |

## Left out

- Fetching the transcript, `JSONL.parse`/`stringify` and the OpenAI summariser (`src/app/inngest/functions.ts:9-33, 46-52, 105-108`) are I/O. The job receives the parsed transcript and a `summarize` function.
- The Stream SDK (`verifyWebhook`, `connectOpenAi`, `updateSession`, `call.end`) is external. The signature check is a parameter; the other calls are logged as values, and their results and failures are not modelled.
- The Polar customer lookup is external; its active subscriptions are a parameter. `getFreeUsage` is a function, so it writes nothing.
- Text.ContainsIgnoreCase: folds only ASCII letters and matches the search literally: it does not treat `%` and `_` in the search as `ilike` wildcards, nor `\`, the default LIKE escape character, as an escape (so the search `C:\temp` is modelled as matching `C:\temp`, where the database matches `C:temp`). Full case folding needs the database's collation.
- Text.StrLess: id order is code-point order, the "C" collation; another database collation may order ids differently.
- `getMany`'s `duration` column (`EXTRACT(EPOCH FROM ...)`) is arithmetic on timestamps and is not modelled.
- `updatedAt` and the other timestamp defaults of the schema are not modelled; `createdAt` is the `now` of the insert.
- A webhook payload missing `call`, `call_cid`, `call_transcription` or `call_recording` makes the source throw a TypeError; the model assumes they are present.
- Authentication (`protectedProcedure`, `src/trpc/init.ts`) is not modelled: the caller's user id is a parameter, and the UNAUTHORIZED error is absent.
- `premiumProcedure("agents")`, which guards `agents.create`, is not defined in `src/trpc/init.ts`. Its limit check is not part of this model.
- `src/db/schema.ts` is not part of this model. Foreign keys and cascades on delete are unmodelled, and the id a row gets at insert is supplied fresh by the caller.
- Meetings.NewMeeting: the column defaults are assumed, not read from the schema: a new meeting starts upcoming, with no start or end time, no transcript or recording link and no summary, and `createdAt` is the `now` of the insert.
- `src/constants.ts` is not part of this model. DEFAULT_PAGE, DEFAULT_PAGE_SIZE, MIN_PAGE_SIZE and MAX_PAGE_SIZE are a `PageLimits` parameter, with MIN_PAGE_SIZE >= 1.
- The insert and update schemas (`../schemas`) are not part of this model. Their fields are taken as name and agentId for meetings, and name and instructions for agents.
- Meetings.GetMany: page has no upper bound, in the source as in the model. The source computes the offset `(page - 1) * pageSize` as a JavaScript double and hands it to PostgreSQL, where OFFSET is a bigint; an offset beyond the bigint range (page 10^19 with pageSize 10, say) makes the source's query fail and the procedure throw, while the model returns an empty page.
- Agents.GetMany: the same unbounded page; an offset beyond PostgreSQL's bigint range makes the source's query fail, while the model returns an empty page.
- Paging.ValidateListInput: page and pageSize are taken as integers. The source's `z.number()` also accepts fractions such as page 1.5, and would then send a fractional OFFSET or LIMIT to the database; the model cannot express that input.
- Paging.ValidateListInput: the BAD_REQUEST message "Invalid input" is a placeholder. The source's message is the input validator's list of failed rules, which is not modelled.
- Webhook.TranscriptionReady: a cid without a colon gives an undefined id, and the model assumes `eq(meetings.id, undefined)` matches no row, so the result is 404 (and Webhook.RecordingReady leaves the table unchanged). A driver that rejects an undefined parameter would fail the request instead.
- Concurrent requests are not modelled. `session_started`'s select then update are two steps of one request.
- The inngest route registers `helloWorld`, not `meetingsProcessing`, and no code sends the `meetings/processing` event. The job is modelled on its own.
- There is no `message.new` handler in the webhook, so none is modelled.
