/** The relational store the handlers reach through Prisma, modelled as one in-memory
    object whose tables are sequences: users, sessions, messages, summary reports and the
    analytics log. Each method is one Prisma call of the handlers; what the database
    enforces (auto-increment ids, the foreign keys, one report per session) is the
    object invariant `Valid`. */
module Store {
  import opened Base
  import opened Deepseek
  import opened Ordering

  // ---------------------------------------------------------------------------
  // rows

  /** A user and the profile collected at onboarding; an unset field is None. */
  datatype User = User(
    id: int,
    username: string,
    role: Option<string>,
    businessLine: Option<string>,
    workStyle: Option<string>,
    developmentGoal: Option<string>,
    workChallenge: Option<string>)

  /** A coaching session; times are milliseconds. */
  datatype Session = Session(
    id: int,
    userId: int,
    scenario: string,
    status: string,
    currentPhase: string,
    messageCount: int,
    startedAt: int,
    endedAt: Option<int>,
    durationMinutes: Option<int>)

  /** One turn of a session's conversation. */
  datatype StoredMessage = StoredMessage(
    id: int,
    sessionId: int,
    role: Role,
    content: string,
    phase: string,
    createdAt: int)

  /** A summary report; insights and action plans are stored as JSON text. */
  datatype Report = Report(
    id: int,
    sessionId: int,
    userId: int,
    topic: string,
    insights: string,
    actionPlans: string,
    commitment: Option<string>,
    generatedAt: int)

  /** The metadata a `session_start` entry carries. */
  datatype StartMetadata = StartMetadata(roleType: Option<string>, businessLine: Option<string>)

  /** An analytics entry; it is written and never read back. */
  datatype AnalyticsLog = AnalyticsLog(
    eventType: string,
    scenario: string,
    phase: string,
    durationSeconds: Option<int>,
    metadata: Option<StartMetadata>)

  const InProgress: string := "in_progress"
  const Completed: string := "completed"

  // ---------------------------------------------------------------------------
  // queries on the tables

  /** The unique keys of the users table: the username the routes look users up by,
      and the id a session's foreign key holds. */
  datatype UserKey = Username(name: string) | UserId(id: int)

  predicate HasKey(u: User, key: UserKey) {
    match key
    case Username(name) => u.username == name
    case UserId(id) => u.id == id
  }

  /** `user.findUnique({ where: { username } })`, and the user a session's foreign key
      names. */
  function FindUser(users: seq<User>, key: UserKey): (r: Option<User>)
    ensures r.Some? ==> r.value in users && HasKey(r.value, key)
    ensures r.None? ==> forall u :: u in users ==> !HasKey(u, key)
    decreases |users|
  {
    if |users| == 0 then None
    else if HasKey(users[0], key) then Some(users[0])
    else FindUser(users[1..], key)
  }

  /** The messages of one session, in the order they were written. */
  function MessagesOf(ms: seq<StoredMessage>, sessionId: int): (r: seq<StoredMessage>)
    ensures |r| <= |ms|
    ensures forall m :: m in r <==> m in ms && m.sessionId == sessionId
    decreases |ms|
  {
    if |ms| == 0 then []
    else
      var init, last := ms[..|ms| - 1], ms[|ms| - 1];
      assert ms == init + [last];
      MessagesOf(init, sessionId) + (if last.sessionId == sessionId then [last] else [])
  }

  /** A session's messages hold each of its stored messages as often as the table does,
      and nothing else. */
  lemma {:induction false} MessagesOfCounts(ms: seq<StoredMessage>, sessionId: int, m: StoredMessage)
    ensures multiset(MessagesOf(ms, sessionId))[m] == if m.sessionId == sessionId then multiset(ms)[m] else 0
    decreases |ms|
  {
    if |ms| > 0 {
      var init, last := ms[..|ms| - 1], ms[|ms| - 1];
      assert ms == init + [last];
      MessagesOfCounts(init, sessionId, m);
    }
  }

  /** Writing a message adds it to its own session's messages and to no other's. */
  lemma MessagesOfAppend(ms: seq<StoredMessage>, m: StoredMessage, sessionId: int)
    ensures MessagesOf(ms + [m], sessionId)
            == MessagesOf(ms, sessionId) + (if m.sessionId == sessionId then [m] else [])
  {
    assert (ms + [m])[..|ms|] == ms;
  }

  /** `summaryReport.findUnique({ where: { sessionId } })` */
  function FindReport(reports: seq<Report>, sessionId: int): (r: Option<Report>)
    ensures r.Some? ==> r.value in reports && r.value.sessionId == sessionId
    ensures r.None? ==> forall x :: x in reports ==> x.sessionId != sessionId
    decreases |reports|
  {
    if |reports| == 0 then None
    else if reports[0].sessionId == sessionId then Some(reports[0])
    else FindReport(reports[1..], sessionId)
  }

  /** The reports that belong to a session. */
  function ReportsOf(reports: seq<Report>, sessionId: int): (r: seq<Report>)
    ensures forall x :: x in r <==> x in reports && x.sessionId == sessionId
    decreases |reports|
  {
    if |reports| == 0 then []
    else
      (if reports[0].sessionId == sessionId then [reports[0]] else [])
      + ReportsOf(reports[1..], sessionId)
  }

  /** Report ids grow along the table. */
  ghost predicate IdsIncrease(reports: seq<Report>) {
    forall i, j :: 0 <= i < j < |reports| ==> reports[i].id < reports[j].id
  }

  /** The table after `summaryReport.delete({ where: { id } })`. */
  function WithoutReport(reports: seq<Report>, id: int): (r: seq<Report>)
    ensures forall x :: x in r <==> x in reports && x.id != id
    ensures IdsIncrease(reports) ==> IdsIncrease(r)
    decreases |reports|
  {
    if |reports| == 0 then []
    else
      var rest := WithoutReport(reports[1..], id);
      if reports[0].id == id then rest
      else
        var r := [reports[0]] + rest;
        assert IdsIncrease(reports) ==> IdsIncrease(r) by {
          if IdsIncrease(reports) {
            assert IdsIncrease(reports[1..]);
            forall y | y in rest ensures reports[0].id < y.id {
              FirstIdSmallest(reports, y);
            }
            ConsIncreases(reports[0], rest);
          }
        }
        r
  }

  /** A report whose id is below every id of a table with growing ids can go first. */
  lemma ConsIncreases(x: Report, rest: seq<Report>)
    requires IdsIncrease(rest) && forall y :: y in rest ==> x.id < y.id
    ensures IdsIncrease([x] + rest)
  {
    var r := [x] + rest;
    forall i, j | 0 <= i < j < |r| ensures r[i].id < r[j].id {
      assert r[j] == rest[j - 1] && r[j] in rest;
      if i > 0 {
        assert r[i] == rest[i - 1];
      }
    }
  }

  /** Reports taken from a table with one report per session, with growing ids, still
      have one report per session. */
  lemma OnePerSessionKept(reports: seq<Report>, r: seq<Report>)
    requires forall i, j :: 0 <= i < j < |reports| ==> reports[i].sessionId != reports[j].sessionId
    requires IdsIncrease(r) && forall x :: x in r ==> x in reports
    ensures forall i, j :: 0 <= i < j < |r| ==> r[i].sessionId != r[j].sessionId
  {
    forall i, j | 0 <= i < j < |r| ensures r[i].sessionId != r[j].sessionId {
      var a, b := r[i], r[j];
      assert a in reports && b in reports;
      var p :| 0 <= p < |reports| && reports[p] == a;
      var q :| 0 <= q < |reports| && reports[q] == b;
      assert a.id < b.id;
      assert p != q;
    }
  }

  /** Along a table whose ids grow, every later report has a larger id than the first. */
  lemma FirstIdSmallest(reports: seq<Report>, y: Report)
    requires IdsIncrease(reports) && |reports| > 0 && y in reports[1..]
    ensures reports[0].id < y.id
  {
    var k :| 0 <= k < |reports[1..]| && reports[1..][k] == y;
    assert reports[k + 1] == y;
  }

  function CreatedAt(m: StoredMessage): int { m.createdAt }

  /** The sessions table with one session's message count raised by `n`. */
  function Bump(sessions: seq<Session>, id: int, n: int): (r: seq<Session>)
    requires 1 <= id <= |sessions|
    ensures |r| == |sessions|
    ensures r[id - 1].messageCount == sessions[id - 1].messageCount + n
    ensures forall k :: 0 <= k < |r| && k != id - 1 ==> r[k] == sessions[k]
  {
    sessions[id - 1 := sessions[id - 1].(messageCount := sessions[id - 1].messageCount + n)]
  }

  /** Every session's `messageCount` equals the number of its messages. */
  ghost predicate CountsAgreeFor(sessions: seq<Session>, messages: seq<StoredMessage>) {
    forall i :: 0 <= i < |sessions| ==> sessions[i].messageCount == |MessagesOf(messages, i + 1)|
  }

  /** Storing a message and raising its session's count by one keeps every count
      equal to the number of messages. */
  lemma RecordingKeepsCounts(sessions: seq<Session>, messages: seq<StoredMessage>, m: StoredMessage)
    requires CountsAgreeFor(sessions, messages) && 1 <= m.sessionId <= |sessions|
    ensures CountsAgreeFor(Bump(sessions, m.sessionId, 1), messages + [m])
  {
    var bumped := Bump(sessions, m.sessionId, 1);
    forall i | 0 <= i < |sessions|
      ensures bumped[i].messageCount == |MessagesOf(messages + [m], i + 1)|
    {
      MessagesOfAppend(messages, m, i + 1);
      if i == m.sessionId - 1 {
        assert bumped[i].messageCount == sessions[i].messageCount + 1;
      } else {
        assert bumped[i] == sessions[i];
        assert MessagesOf(messages + [m], i + 1) == MessagesOf(messages, i + 1);
      }
    }
  }

  /** The sessions table with one session completed: its status, end time and duration
      set, every other session as it was. */
  function Completion(sessions: seq<Session>, id: int, endedAt: int, durationMinutes: int): (r: seq<Session>)
    requires 1 <= id <= |sessions|
    ensures |r| == |sessions| && r[id - 1].status == Completed
    ensures r[id - 1].endedAt == Some(endedAt) && r[id - 1].durationMinutes == Some(durationMinutes)
    ensures r[id - 1].(status := sessions[id - 1].status, endedAt := sessions[id - 1].endedAt,
                       durationMinutes := sessions[id - 1].durationMinutes) == sessions[id - 1]
    ensures forall k :: 0 <= k < |r| && k != id - 1 ==> r[k] == sessions[k]
  {
    sessions[id - 1 := sessions[id - 1].(status := Completed, endedAt := Some(endedAt), durationMinutes := Some(durationMinutes))]
  }

  /** Raising a count twice by one raises it by two. */
  lemma BumpTwice(sessions: seq<Session>, id: int)
    requires 1 <= id <= |sessions|
    ensures Bump(Bump(sessions, id, 1), id, 1) == Bump(sessions, id, 2)
  {
  }

  // ---------------------------------------------------------------------------
  // the store

  class Db {
    var users: seq<User>
    var sessions: seq<Session>
    var messages: seq<StoredMessage>
    var reports: seq<Report>
    var analytics: seq<AnalyticsLog>
    var nextReportId: int

    /** What the schema enforces: usernames and user ids are unique, session and message
        ids count up from 1 and are never reused, every foreign key names an existing
        row, a message is written by the user or the assistant, and a session has at
        most one report (report ids grow, so a deleted id is never reused). */
    ghost predicate Valid()
      reads this
    {
      && (forall i, j :: 0 <= i < j < |users| ==> users[i].username != users[j].username && users[i].id != users[j].id)
      && (forall i :: 0 <= i < |sessions| ==> sessions[i].id == i + 1)
      && (forall i :: 0 <= i < |sessions| ==> FindUser(users, UserId(sessions[i].userId)).Some?)
      && (forall i :: 0 <= i < |messages| ==> messages[i].id == i + 1)
      && (forall i :: 0 <= i < |messages| ==> 1 <= messages[i].sessionId <= |sessions|)
      && (forall i :: 0 <= i < |messages| ==> messages[i].role != System)
      && (forall i :: 0 <= i < |reports| ==> 1 <= reports[i].sessionId <= |sessions|)
      && (forall i :: 0 <= i < |reports| ==> reports[i].id < nextReportId)
      && IdsIncrease(reports)
      && (forall i, j :: 0 <= i < j < |reports| ==> reports[i].sessionId != reports[j].sessionId)
    }

    /** Every session's `messageCount` equals the number of its stored messages. */
    ghost predicate CountsAgree()
      reads this
    {
      CountsAgreeFor(sessions, messages)
    }

    /** A store holding only the users created at onboarding. */
    constructor (users: seq<User>)
      requires forall i, j :: 0 <= i < j < |users| ==> users[i].username != users[j].username && users[i].id != users[j].id
      ensures Valid() && CountsAgree()
      ensures this.users == users && sessions == [] && messages == [] && reports == [] && analytics == []
    {
      this.users := users;
      sessions, messages, reports, analytics := [], [], [], [];
      nextReportId := 1;
    }

    /** `session.findUnique({ where: { id } })` */
    function FindSession(id: int): (r: Option<Session>)
      reads this
      ensures Valid() ==> (r.Some? <==> exists i :: 0 <= i < |sessions| && sessions[i].id == id)
      ensures r.Some? ==> 1 <= id <= |sessions| && r.value.id == id && r.value == sessions[id - 1]
    {
      if 1 <= id <= |sessions| && sessions[id - 1].id == id then Some(sessions[id - 1]) else None
    }

    /** The user a session belongs to (`include: { user: true }`). */
    function Owner(sessionId: int): (u: User)
      reads this
      requires Valid() && 1 <= sessionId <= |sessions|
      ensures u in users && u.id == sessions[sessionId - 1].userId
    {
      FindUser(users, UserId(sessions[sessionId - 1].userId)).value
    }

    /** A session's messages `orderBy: { createdAt: 'asc' }`; messages written at the same
        instant keep the order they were written in. */
    function SessionMessages(sessionId: int): (r: seq<StoredMessage>)
      reads this
      ensures SortedBy(r, CreatedAt)
      ensures multiset(r) == multiset(MessagesOf(messages, sessionId))
      ensures forall m :: m in r <==> m in messages && m.sessionId == sessionId
    {
      var mine := MessagesOf(messages, sessionId);
      var r := SortBy(mine, CreatedAt);
      assert forall m :: m in r <==> m in mine by {
        forall m ensures m in r <==> m in mine {
          assert m in r <==> m in multiset(r);
          assert m in mine <==> m in multiset(mine);
        }
      }
      r
    }

    /** `message.create`: the next id, the given fields, `createdAt` now. */
    method CreateMessage(sessionId: int, role: Role, content: string, phase: string, now: int)
      returns (m: StoredMessage)
      requires Valid() && 1 <= sessionId <= |sessions| && role != System
      modifies this
      ensures Valid()
      ensures m == StoredMessage(|old(messages)| + 1, sessionId, role, content, phase, now)
      ensures messages == old(messages) + [m]
      ensures users == old(users) && sessions == old(sessions) && reports == old(reports)
      ensures analytics == old(analytics) && nextReportId == old(nextReportId)
    {
      m := StoredMessage(|messages| + 1, sessionId, role, content, phase, now);
      messages := messages + [m];
    }

    /** `session.update({ data: { messageCount: { increment: 1 } } })` */
    method IncrementMessageCount(sessionId: int)
      requires Valid() && 1 <= sessionId <= |sessions|
      modifies this
      ensures Valid()
      ensures sessions == Bump(old(sessions), sessionId, 1)
      ensures users == old(users) && messages == old(messages) && reports == old(reports)
      ensures analytics == old(analytics) && nextReportId == old(nextReportId)
    {
      sessions := Bump(sessions, sessionId, 1);
    }

    /** `session.create`: the next id, `messageCount` 0 and `startedAt` now. */
    method CreateSession(userId: int, scenario: string, status: string, phase: string, now: int)
      returns (s: Session)
      requires Valid() && FindUser(users, UserId(userId)).Some?
      modifies this
      ensures Valid()
      ensures s == Session(|old(sessions)| + 1, userId, scenario, status, phase, 0, now, None, None)
      ensures sessions == old(sessions) + [s]
      ensures users == old(users) && messages == old(messages) && reports == old(reports)
      ensures analytics == old(analytics) && nextReportId == old(nextReportId)
    {
      s := Session(|sessions| + 1, userId, scenario, status, phase, 0, now, None, None);
      sessions := sessions + [s];
    }

    /** `session.update` closing a session at report time. */
    method CompleteSession(sessionId: int, endedAt: int, durationMinutes: int)
      requires Valid() && 1 <= sessionId <= |sessions|
      modifies this
      ensures Valid()
      ensures sessions == Completion(old(sessions), sessionId, endedAt, durationMinutes)
      ensures users == old(users) && messages == old(messages) && reports == old(reports)
      ensures analytics == old(analytics) && nextReportId == old(nextReportId)
    {
      sessions := Completion(sessions, sessionId, endedAt, durationMinutes);
    }

    /** `summaryReport.delete({ where: { id } })` */
    method DeleteReport(id: int)
      requires Valid() && exists k :: 0 <= k < |reports| && reports[k].id == id
      modifies this
      ensures Valid()
      ensures reports == WithoutReport(old(reports), id)
      ensures users == old(users) && sessions == old(sessions) && messages == old(messages)
      ensures analytics == old(analytics) && nextReportId == old(nextReportId)
    {
      reports := WithoutReport(reports, id);
      OnePerSessionKept(old(reports), reports);
    }

    /** `summaryReport.create`: the next report id and `generatedAt` now. The session
        must have no report yet (the unique constraint on `sessionId`). */
    method CreateReport(sessionId: int, userId: int, topic: string, insights: string,
                        actionPlans: string, commitment: Option<string>, now: int)
      returns (r: Report)
      requires Valid() && 1 <= sessionId <= |sessions| && FindReport(reports, sessionId).None?
      modifies this
      ensures Valid()
      ensures r == Report(old(nextReportId), sessionId, userId, topic, insights, actionPlans, commitment, now)
      ensures reports == old(reports) + [r] && nextReportId == old(nextReportId) + 1
      ensures users == old(users) && sessions == old(sessions) && messages == old(messages)
      ensures analytics == old(analytics)
    {
      r := Report(nextReportId, sessionId, userId, topic, insights, actionPlans, commitment, now);
      reports := reports + [r];
      nextReportId := nextReportId + 1;
    }

    /** `analyticsLog.create` */
    method Log(entry: AnalyticsLog)
      requires Valid()
      modifies this
      ensures Valid()
      ensures analytics == old(analytics) + [entry]
      ensures users == old(users) && sessions == old(sessions) && messages == old(messages)
      ensures reports == old(reports) && nextReportId == old(nextReportId)
    {
      analytics := analytics + [entry];
    }
  }
}
