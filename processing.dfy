/**
 * The `meetings/processing` background job: collect the transcript's
 * distinct speaker ids, look them up among users and agents, attach each
 * item's speaker name ("Unknown" when neither table has it), have the
 * transcript summarised, and save the summary with status `completed`.
 */
module Processing {
  import opened Schema

  /**
   * One line of the transcript. The job reads only `speaker_id`; the other
   * fields (`type`, `text`, `start_ts`, `stop_ts`) are an assumed layout of
   * the stream's transcript line, carried through unchanged.
   */
  datatype TranscriptItem = TranscriptItem(speakerId: string, kind: string, text: string, startTs: int, stopTs: int)

  /** `{ ...item, user: { name } }`. */
  datatype EnrichedItem = EnrichedItem(item: TranscriptItem, userName: string)

  /** A user or agent row as the speaker lookup sees it: its id and name. */
  datatype Speaker = Speaker(id: string, name: string)

  const UNKNOWN := "Unknown"

  ghost predicate NoDuplicates<T>(s: seq<T>) {
    forall i, j :: 0 <= i < j < |s| ==> s[i] != s[j]
  }

  /** `[...new Set(xs)]`: each value of xs, once. */
  function Distinct(xs: seq<string>): (r: seq<string>)
    ensures NoDuplicates(r)
    ensures forall x :: x in r <==> x in xs
    decreases |xs|
  {
    if xs == [] then []
    else
      var init := xs[..|xs| - 1];
      var last := xs[|xs| - 1];
      assert xs == init + [last];
      var r := Distinct(init);
      if last in r then r else r + [last]
  }

  function SpeakerIdsOf(transcript: seq<TranscriptItem>): (ids: seq<string>)
    ensures |ids| == |transcript|
    ensures forall i :: 0 <= i < |transcript| ==> ids[i] == transcript[i].speakerId
  {
    seq(|transcript|, i requires 0 <= i < |transcript| => transcript[i].speakerId)
  }

  /** The distinct speaker ids of the transcript. */
  function SpeakerIds(transcript: seq<TranscriptItem>): (ids: seq<string>)
    ensures NoDuplicates(ids)
    ensures forall x :: x in ids <==> exists i :: 0 <= i < |transcript| && transcript[i].speakerId == x
  {
    var all := SpeakerIdsOf(transcript);
    var r := Distinct(all);
    assert forall x :: x in all <==> exists i :: 0 <= i < |transcript| && transcript[i].speakerId == x by {
      forall x | x in all ensures exists i :: 0 <= i < |transcript| && transcript[i].speakerId == x {
        var i :| 0 <= i < |all| && all[i] == x;
      }
    }
    r
  }

  /**
   * A result of `select ... where id in ids` over a table seen as id -> name:
   * every returned row is a table row with a listed id, and every table row
   * with a listed id is returned. The order is the database's.
   */
  ghost predicate IsSelection(rows: seq<Speaker>, names: map<string, string>, ids: seq<string>) {
    && (forall i :: 0 <= i < |rows| ==> rows[i].id in ids && rows[i].id in names && rows[i].name == names[rows[i].id])
    && (forall k :: k in names && k in ids ==> exists i :: 0 <= i < |rows| && rows[i].id == k)
  }

  function UserNames(users: UserTable): (names: map<string, string>)
    ensures names.Keys == users.Keys
    ensures forall k :: k in users ==> names[k] == users[k].name
  {
    map k | k in users :: users[k].name
  }

  function AgentNames(agents: AgentTable): (names: map<string, string>)
    ensures names.Keys == agents.Keys
    ensures forall k :: k in agents ==> names[k] == agents[k].name
  {
    map k | k in agents :: agents[k].name
  }

  /** One selection order: the order of the ids asked for. */
  function SelectByIds(names: map<string, string>, ids: seq<string>): (rows: seq<Speaker>)
    ensures forall i :: 0 <= i < |rows| ==> rows[i].id in ids && rows[i].id in names && rows[i].name == names[rows[i].id]
    ensures forall k :: k in names && k in ids ==> exists i :: 0 <= i < |rows| && rows[i].id == k
    decreases |ids|
  {
    if ids == [] then []
    else
      var rest := SelectByIds(names, ids[1..]);
      var head := if ids[0] in names then [Speaker(ids[0], names[ids[0]])] else [];
      var rows := head + rest;
      assert forall k :: k in names && k in ids ==> exists i :: 0 <= i < |rows| && rows[i].id == k by {
        forall k | k in names && k in ids ensures exists i :: 0 <= i < |rows| && rows[i].id == k {
          if k == ids[0] {
            assert rows[0].id == k;
          } else {
            assert k in ids[1..];
            var i :| 0 <= i < |rest| && rest[i].id == k;
            assert rows[|head| + i].id == k;
          }
        }
      }
      rows
  }

  /** `speakers.find(s => s.id === id)`: the first speaker with that id. */
  function FindSpeaker(speakers: seq<Speaker>, id: string): (r: Option<Speaker>)
    ensures r.None? <==> forall i :: 0 <= i < |speakers| ==> speakers[i].id != id
    ensures r.Some? ==> exists i :: 0 <= i < |speakers| && speakers[i] == r.value && r.value.id == id &&
                                    forall j :: 0 <= j < i ==> speakers[j].id != id
    decreases |speakers|
  {
    if speakers == [] then None
    else if speakers[0].id == id then Some(speakers[0])
    else
      var r := FindSpeaker(speakers[1..], id);
      assert r.Some? ==> exists i :: 0 <= i < |speakers| && speakers[i] == r.value && r.value.id == id &&
                                     forall j :: 0 <= j < i ==> speakers[j].id != id by {
        if r.Some? {
          var i :| 0 <= i < |speakers[1..]| && speakers[1..][i] == r.value && r.value.id == id &&
                   forall j :: 0 <= j < i ==> speakers[1..][j].id != id;
          assert speakers[i + 1] == r.value;
          assert forall j :: 0 <= j < i + 1 ==> speakers[j].id != id by {
            forall j | 0 < j < i + 1 ensures speakers[j].id != id {
              assert speakers[j] == speakers[1..][j - 1];
            }
          }
        }
      }
      r
  }

  /** `speaker.name` for the first speaker with that id, or "Unknown" when there is none. */
  function NameFor(speakers: seq<Speaker>, id: string): (name: string)
    ensures (forall i :: 0 <= i < |speakers| ==> speakers[i].id != id) ==> name == UNKNOWN
    ensures (exists i :: 0 <= i < |speakers| && speakers[i].id == id) ==>
              exists i :: 0 <= i < |speakers| && speakers[i].id == id && speakers[i].name == name &&
                          forall j :: 0 <= j < i ==> speakers[j].id != id
  {
    match FindSpeaker(speakers, id)
    case Some(s) => s.name
    case None => UNKNOWN
  }

  /** The `transcript.map(...)` of the `add-speakers` step. */
  function Enrich(transcript: seq<TranscriptItem>, speakers: seq<Speaker>): (r: seq<EnrichedItem>)
    ensures |r| == |transcript|
    ensures forall i :: 0 <= i < |r| ==> r[i].item == transcript[i]
    ensures forall i :: 0 <= i < |r| ==> r[i].userName == NameFor(speakers, transcript[i].speakerId)
  {
    seq(|transcript|, i requires 0 <= i < |transcript| =>
      EnrichedItem(transcript[i], NameFor(speakers, transcript[i].speakerId)))
  }

  /** The name a speaker id resolves to: a user's first, then an agent's, else "Unknown". */
  function ResolvedName(users: UserTable, agents: AgentTable, id: string): (name: string) {
    if id in users then users[id].name else if id in agents then agents[id].name else UNKNOWN
  }

  /** `find` over a concatenation looks in the second part only when the first has no match. */
  lemma {:induction false} FindSpeakerConcat(a: seq<Speaker>, b: seq<Speaker>, id: string)
    ensures FindSpeaker(a + b, id) == if FindSpeaker(a, id).Some? then FindSpeaker(a, id) else FindSpeaker(b, id)
    decreases |a|
  {
    if a != [] {
      assert (a + b)[1..] == a[1..] + b;
      FindSpeakerConcat(a[1..], b, id);
    } else {
      assert a + b == b;
    }
  }

  /** In a selection, a listed id finds exactly its table row, or nothing when the table lacks it. */
  lemma {:induction false} FindInSelection(rows: seq<Speaker>, names: map<string, string>, ids: seq<string>, id: string)
    requires IsSelection(rows, names, ids) && id in ids
    ensures FindSpeaker(rows, id) == if id in names then Some(Speaker(id, names[id])) else None
  {
    var r := FindSpeaker(rows, id);
    if id in names {
      var u :| 0 <= u < |rows| && rows[u].id == id;
      assert r.Some?;
    }
  }

  /** Where the users come first, a selected user's name wins over an agent's. */
  lemma {:induction false} FindInUsersThenAgents(urows: seq<Speaker>, arows: seq<Speaker>,
                                                 users: map<string, string>, agents: map<string, string>,
                                                 ids: seq<string>, id: string)
    requires IsSelection(urows, users, ids) && IsSelection(arows, agents, ids)
    requires id in ids
    ensures NameFor(urows + arows, id) ==
              if id in users then users[id] else if id in agents then agents[id] else UNKNOWN
  {
    FindSpeakerConcat(urows, arows, id);
    FindInSelection(urows, users, ids, id);
    FindInSelection(arows, agents, ids, id);
  }

  /**
   * The `add-speakers` step for any order in which the database returns the
   * selected users and agents: same length and order as the transcript,
   * every item kept, and each name resolved user-first, then agent, else
   * "Unknown".
   */
  lemma {:induction false} EnrichResolvesNames(transcript: seq<TranscriptItem>, users: UserTable, agents: AgentTable,
                                               urows: seq<Speaker>, arows: seq<Speaker>)
    requires IsSelection(urows, UserNames(users), SpeakerIds(transcript))
    requires IsSelection(arows, AgentNames(agents), SpeakerIds(transcript))
    ensures var r := Enrich(transcript, urows + arows);
            && |r| == |transcript|
            && (forall i :: 0 <= i < |r| ==> r[i].item == transcript[i])
            && (forall i :: 0 <= i < |r| ==> r[i].userName == ResolvedName(users, agents, transcript[i].speakerId))
  {
    var ids := SpeakerIds(transcript);
    forall i | 0 <= i < |transcript|
      ensures NameFor(urows + arows, transcript[i].speakerId) == ResolvedName(users, agents, transcript[i].speakerId)
    {
      FindInUsersThenAgents(urows, arows, UserNames(users), AgentNames(agents), ids, transcript[i].speakerId);
    }
  }

  /** The `add-speakers` step, with the rows selected in speaker-id order. */
  function AddSpeakers(transcript: seq<TranscriptItem>, users: UserTable, agents: AgentTable): (r: seq<EnrichedItem>)
    ensures |r| == |transcript|
    ensures forall i :: 0 <= i < |r| ==> r[i].item == transcript[i]
    ensures forall i :: 0 <= i < |r| ==> r[i].userName == ResolvedName(users, agents, transcript[i].speakerId)
  {
    var ids := SpeakerIds(transcript);
    var urows := SelectByIds(UserNames(users), ids);
    var arows := SelectByIds(AgentNames(agents), ids);
    EnrichResolvesNames(transcript, users, agents, urows, arows);
    Enrich(transcript, urows + arows)
  }

  /** The `save-summary` update: summary and status on one row, no guard on its prior status. */
  method SaveSummary(db: Database, meetingId: string, summary: string)
    requires db.Valid()
    modifies db`meetings
    ensures db.Valid()
    ensures db.meetings.Keys == old(db.meetings).Keys
    ensures forall k :: k in old(db.meetings) && k != meetingId ==> db.meetings[k] == old(db.meetings)[k]
    ensures meetingId in old(db.meetings) ==>
              db.meetings[meetingId] == old(db.meetings)[meetingId].(summary := Some(summary), status := Completed)
  {
    if meetingId in db.meetings {
      db.meetings := db.meetings[meetingId := db.meetings[meetingId].(summary := Some(summary), status := Completed)];
    }
  }

  /**
   * The whole job for one `{ meetingId, transcript }` event. Fetching and
   * parsing the transcript are done by the caller; `summarize` is the
   * summariser agent applied to the enriched transcript.
   */
  method MeetingsProcessing(db: Database, meetingId: string, transcript: seq<TranscriptItem>,
                            summarize: seq<EnrichedItem> -> string)
    returns (enriched: seq<EnrichedItem>)
    requires db.Valid()
    modifies db`meetings
    ensures db.Valid()
    ensures enriched == AddSpeakers(transcript, db.users, db.agents)
    ensures db.meetings.Keys == old(db.meetings).Keys
    ensures forall k :: k in old(db.meetings) && k != meetingId ==> db.meetings[k] == old(db.meetings)[k]
    ensures meetingId in old(db.meetings) ==>
              db.meetings[meetingId] ==
                old(db.meetings)[meetingId].(summary := Some(summarize(enriched)), status := Completed)
  {
    enriched := AddSpeakers(transcript, db.users, db.agents);
    var output := summarize(enriched);
    SaveSummary(db, meetingId, output);
  }
}
