/** The `mockInterview` namespace: practice sessions, the chat messages of a
    session (`mockInterview.messages`) and the assessment reports
    (`mockInterview.assessmentReport`), each an in-memory table. */
module MockInterview {
  import opened Common
  import opened Context
  import Tables

  /** A mock interview session. `score` and `feedback` start as `null`. */
  datatype Session = Session(
    id: int,
    userId: int,
    topic: string,
    difficulty: Difficulty,
    targetPosition: string,
    status: string,
    score: Option<int>,
    feedback: Option<string>,
    createdAt: Time,
    updatedAt: Time)

  /** The validated input of `mockInterview.create`. */
  datatype SessionInput = SessionInput(topic: string, difficulty: Difficulty, targetPosition: string)

  /** The optional fields of `mockInterview.update`; `None` is a key left out. */
  datatype SessionPatch = SessionPatch(status: Option<string>, score: Option<int>, feedback: Option<string>)

  /** The sender of a chat message, as the input schema allows it. */
  datatype MessageRole = FromUser | FromAssistant

  datatype Message = Message(id: int, sessionId: int, role: MessageRole, content: string, createdAt: Time)

  /** The validated input of `mockInterview.messages.create`. */
  datatype MessageInput = MessageInput(sessionId: int, role: MessageRole, content: string)

  datatype Report = Report(
    id: int,
    userId: int,
    sessionId: int,
    overallScore: int,
    technicalScore: int,
    communicationScore: int,
    problemSolvingScore: int,
    strengths: seq<string>,
    weaknesses: seq<string>,
    recommendations: seq<string>,
    createdAt: Time)

  /** The validated input of `mockInterview.assessmentReport.create`. */
  datatype ReportInput = ReportInput(
    sessionId: int,
    overallScore: int,
    technicalScore: int,
    communicationScore: int,
    problemSolvingScore: int,
    strengths: seq<string>,
    weaknesses: seq<string>,
    recommendations: seq<string>)

  function HasId(id: int): Session -> bool {
    (s: Session) => s.id == id
  }

  function OfSession(sessionId: int): Message -> bool {
    (m: Message) => m.sessionId == sessionId
  }

  function ReportOf(sessionId: int): Report -> bool {
    (r: Report) => r.sessionId == sessionId
  }

  // ---------------------------------------------------------------------
  // Sessions

  /** The session `mockInterview.create` appends to a table of `count` rows:
      in progress, without score or feedback. */
  function NewSession(count: nat, user: Option<User>, input: SessionInput, now: Time): (s: Session)
    ensures s.id == count + 1 && s.userId == OwnerId(user)
    ensures s.topic == input.topic && s.difficulty == input.difficulty && s.targetPosition == input.targetPosition
    ensures s.status == "in_progress" && s.score.None? && s.feedback.None?
    ensures s.createdAt == now && s.updatedAt == now
  {
    Session(count + 1, OwnerId(user), input.topic, input.difficulty, input.targetPosition,
            "in_progress", None, None, now, now)
  }

  /** `Object.assign(session, input, {updatedAt: now})` on a session whose id
      equals `input.id`: supplied fields overwrite, omitted ones stay. */
  function MergeSession(s: Session, patch: SessionPatch, now: Time): (r: Session)
    ensures r.id == s.id && r.userId == s.userId && r.topic == s.topic
    ensures r.difficulty == s.difficulty && r.targetPosition == s.targetPosition && r.createdAt == s.createdAt
    ensures r.status == patch.status.GetOr(s.status)
    ensures patch.score.Some? ==> r.score == patch.score
    ensures patch.score.None? ==> r.score == s.score
    ensures patch.feedback.Some? ==> r.feedback == patch.feedback
    ensures patch.feedback.None? ==> r.feedback == s.feedback
    ensures r.updatedAt == now
  {
    s.(status := patch.status.GetOr(s.status),
       score := if patch.score.Some? then patch.score else s.score,
       feedback := if patch.feedback.Some? then patch.feedback else s.feedback,
       updatedAt := now)
  }

  function Merged(patch: SessionPatch, now: Time): Session -> Session {
    (s: Session) => MergeSession(s, patch, now)
  }

  /** `mockInterview.getById`: the first session with that id, or `null`. */
  function GetSession(rows: seq<Session>, id: int): (r: Option<Session>)
    ensures r.Some? ==> r.value.id == id && exists k :: Tables.IsFirstMatch(rows, HasId(id), k) && rows[k] == r.value
    ensures r.None? <==> forall i :: 0 <= i < |rows| ==> rows[i].id != id
  {
    Tables.Find(rows, HasId(id))
  }

  /** The in-memory sessions table. */
  class SessionStore {
    var rows: seq<Session>

    constructor (initial: seq<Session>)
      ensures rows == initial
    {
      rows := initial;
    }

    /** `mockInterview.create`: appends one session and returns it. */
    method Create(user: Option<User>, input: SessionInput, now: Time) returns (s: Session)
      modifies this
      ensures s == NewSession(|old(rows)|, user, input, now)
      ensures rows == old(rows) + [s]
    {
      s := NewSession(|rows|, user, input, now);
      rows := rows + [s];
    }

    /** `mockInterview.update`: merges the patch into the first session with
        that id and returns it, or returns `undefined` and changes nothing. */
    method Update(id: int, patch: SessionPatch, now: Time) returns (r: Option<Session>)
      modifies this
      ensures rows == Tables.UpdateFirst(old(rows), HasId(id), Merged(patch, now))
      ensures r == GetSession(rows, id)
      ensures r.None? <==> GetSession(old(rows), id).None?
      ensures r.Some? ==> r == Some(MergeSession(GetSession(old(rows), id).value, patch, now))
    {
      rows, r := Tables.UpdateFound(rows, HasId(id), Merged(patch, now));
    }
  }

  // ---------------------------------------------------------------------
  // Messages

  /** The message `mockInterview.messages.create` appends to a table of
      `count` rows. */
  function NewMessage(count: nat, input: MessageInput, now: Time): (m: Message)
    ensures m.id == count + 1 && m.sessionId == input.sessionId
    ensures m.role == input.role && m.content == input.content && m.createdAt == now
  {
    Message(count + 1, input.sessionId, input.role, input.content, now)
  }

  /** `mockInterview.messages.list`: the messages of one session, in table order. */
  function ListMessages(rows: seq<Message>, sessionId: int): (r: seq<Message>)
    ensures forall i :: 0 <= i < |r| ==> r[i] in rows && r[i].sessionId == sessionId
    ensures forall j :: 0 <= j < |rows| && rows[j].sessionId == sessionId ==> rows[j] in r
  {
    Tables.Filter(rows, OfSession(sessionId))
  }

  /** The in-memory messages table. */
  class MessageStore {
    var rows: seq<Message>

    constructor (initial: seq<Message>)
      ensures rows == initial
    {
      rows := initial;
    }

    /** `mockInterview.messages.create`: appends one message and returns it. */
    method Create(input: MessageInput, now: Time) returns (m: Message)
      modifies this
      ensures m == NewMessage(|old(rows)|, input, now)
      ensures rows == old(rows) + [m]
    {
      m := NewMessage(|rows|, input, now);
      rows := rows + [m];
    }
  }

  // ---------------------------------------------------------------------
  // Assessment reports

  /** The report `mockInterview.assessmentReport.create` appends to a table of
      `count` rows. */
  function NewReport(count: nat, user: Option<User>, input: ReportInput, now: Time): (r: Report)
    ensures r.id == count + 1 && r.userId == OwnerId(user) && r.sessionId == input.sessionId
    ensures r.overallScore == input.overallScore && r.technicalScore == input.technicalScore
    ensures r.communicationScore == input.communicationScore && r.problemSolvingScore == input.problemSolvingScore
    ensures r.strengths == input.strengths && r.weaknesses == input.weaknesses
    ensures r.recommendations == input.recommendations && r.createdAt == now
  {
    Report(count + 1, OwnerId(user), input.sessionId, input.overallScore, input.technicalScore,
           input.communicationScore, input.problemSolvingScore, input.strengths, input.weaknesses,
           input.recommendations, now)
  }

  /** `mockInterview.assessmentReport.get`: the first report of that session,
      or `null`. */
  function GetReport(rows: seq<Report>, sessionId: int): (r: Option<Report>)
    ensures r.Some? ==> r.value.sessionId == sessionId
    ensures r.Some? ==> exists k :: Tables.IsFirstMatch(rows, ReportOf(sessionId), k) && rows[k] == r.value
    ensures r.None? <==> forall i :: 0 <= i < |rows| ==> rows[i].sessionId != sessionId
  {
    Tables.Find(rows, ReportOf(sessionId))
  }

  /** The in-memory assessment reports table. */
  class ReportStore {
    var rows: seq<Report>

    constructor (initial: seq<Report>)
      ensures rows == initial
    {
      rows := initial;
    }

    /** `mockInterview.assessmentReport.create`: appends one report and returns it. */
    method Create(user: Option<User>, input: ReportInput, now: Time) returns (r: Report)
      modifies this
      ensures r == NewReport(|old(rows)|, user, input, now)
      ensures rows == old(rows) + [r]
    {
      r := NewReport(|rows|, user, input, now);
      rows := rows + [r];
    }
  }

  // ---------------------------------------------------------------------
  // Properties

  /** Sending the same update twice leaves the table as one update at the
      later time would: the merge is idempotent apart from `updatedAt`. */
  lemma UpdateTwiceIsUpdateOnce(rows: seq<Session>, id: int, patch: SessionPatch, t1: Time, t2: Time)
    ensures Tables.UpdateFirst(Tables.UpdateFirst(rows, HasId(id), Merged(patch, t1)), HasId(id), Merged(patch, t2))
         == Tables.UpdateFirst(rows, HasId(id), Merged(patch, t2))
  {
    Tables.UpdateFirstTwice(rows, HasId(id), Merged(patch, t1), Merged(patch, t2));
    var composed := (s: Session) => Merged(patch, t2)(Merged(patch, t1)(s));
    match Tables.FindIndex(rows, HasId(id))
    case None =>
    case Some(k) =>
      assert composed(rows[k]) == Merged(patch, t2)(rows[k]);
  }

  /** An update with nothing supplied only stamps `updatedAt`. */
  lemma EmptyPatchOnlyStamps(s: Session, now: Time)
    ensures MergeSession(s, SessionPatch(None, None, None), now) == s.(updatedAt := now)
  {
  }

  /** A new message is listed last among its session's messages and does not
      show up in any other session's list. */
  lemma CreateMessageThenList(rows: seq<Message>, input: MessageInput, now: Time, sessionId: int)
    ensures var m := NewMessage(|rows|, input, now);
      ListMessages(rows + [m], sessionId) ==
        ListMessages(rows, sessionId) + (if sessionId == input.sessionId then [m] else [])
  {
    Tables.FilterAppend(rows, [NewMessage(|rows|, input, now)], OfSession(sessionId));
  }

  /** A new report is what `get` answers for its session exactly when the
      session had no report yet; otherwise the older report keeps answering. */
  lemma CreateReportThenGet(rows: seq<Report>, user: Option<User>, input: ReportInput, now: Time)
    ensures var r := NewReport(|rows|, user, input, now);
      (GetReport(rows, input.sessionId).None? ==> GetReport(rows + [r], input.sessionId) == Some(r)) &&
      (GetReport(rows, input.sessionId).Some? ==>
         GetReport(rows + [r], input.sessionId) == GetReport(rows, input.sessionId))
  {
    var r := NewReport(|rows|, user, input, now);
    var after := rows + [r];
    var p := ReportOf(input.sessionId);
    assert p(after[|rows|]);
    match Tables.FindIndex(rows, p)
    case None =>
      assert Tables.IsFirstMatch(after, p, |rows|);
      Tables.FirstMatchUnique(after, p, |rows|, Tables.FindIndex(after, p).value);
    case Some(k) =>
      assert Tables.IsFirstMatch(after, p, k);
      Tables.FirstMatchUnique(after, p, k, Tables.FindIndex(after, p).value);
  }
}
