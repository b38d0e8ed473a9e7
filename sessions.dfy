/** `/api/sessions` (`src/app/api/sessions/route.ts`): POST starts a coaching session for
    a known user and logs its start; GET lists a user's ten most recent sessions, newest
    first, each with its report. */
module SessionsApi {
  import opened Base
  import opened Deepseek
  import opened Store
  import opened Ordering
  import opened Requests

  // ---------------------------------------------------------------------------
  // POST: starting a session

  /** The JSON body of a POST. */
  datatype CreateBody = CreateBody(username: Option<string>, scenario: Option<string>)

  datatype CreateFailure =
    | MissingFields   // 400
    | UnknownUser     // 404

  /** The reply: an error, or the new session's id, scenario and phase. */
  datatype CreateReply = CreateRefused(failure: CreateFailure) | Created(id: int, scenario: string, currentPhase: string)

  function CreateStatus(f: CreateFailure): (status: int)
    ensures status == 400 <==> f == MissingFields
    ensures status == 404 <==> f == UnknownUser
  {
    match f
    case MissingFields => 400
    case UnknownUser => 404
  }

  /** The `error` text of a refusal. */
  function CreateErrorText(f: CreateFailure): (text: string)
    ensures f == MissingFields ==> text == "用户名和场景是必填项"
    ensures f == UnknownUser ==> text == "用户不存在，请先完成画像采集"
  {
    match f
    case MissingFields => "用户名和场景是必填项"
    case UnknownUser => "用户不存在，请先完成画像采集"
  }

  /** The phase every session starts in. */
  const StartPhase: string := PhaseName(Goal)

  /** A session that no message names yet, starting with a count of zero, keeps every
      count equal to the number of messages. */
  lemma {:induction false} NewSessionKeepsCounts(sessions: seq<Session>, messages: seq<StoredMessage>, s: Session)
    requires CountsAgreeFor(sessions, messages) && s.messageCount == 0
    requires forall i :: 0 <= i < |messages| ==> messages[i].sessionId <= |sessions|
    ensures CountsAgreeFor(sessions + [s], messages)
  {
    var grown := sessions + [s];
    NoMessagesOf(messages, |sessions| + 1);
    forall i | 0 <= i < |grown| ensures grown[i].messageCount == |MessagesOf(messages, i + 1)| {
      if i < |sessions| {
        assert grown[i] == sessions[i];
      }
    }
  }

  /** A session no message names has no messages. */
  lemma {:induction false} NoMessagesOf(messages: seq<StoredMessage>, sessionId: int)
    requires forall i :: 0 <= i < |messages| ==> messages[i].sessionId != sessionId
    ensures MessagesOf(messages, sessionId) == []
    decreases |messages|
  {
    if |messages| > 0 {
      NoMessagesOf(messages[..|messages| - 1], sessionId);
    }
  }

  /** `POST /api/sessions`. A complete body naming a known user starts a session of the
      given scenario, which is not checked against the known scenarios, in progress at
      the goal phase with no messages, and logs one `session_start` entry with the
      user's role and business line. Any other body writes nothing. */
  method HandleCreate(db: Db, body: CreateBody, now: int) returns (reply: CreateReply)
    requires db.Valid()
    modifies db
    ensures db.Valid()
    ensures db.users == old(db.users) && db.messages == old(db.messages)
    ensures db.reports == old(db.reports) && db.nextReportId == old(db.nextReportId)
    ensures old(db.CountsAgree()) ==> db.CountsAgree()
    ensures !TextGiven(body.username) || !TextGiven(body.scenario) ==>
              reply == CreateRefused(MissingFields)
    ensures TextGiven(body.username) && TextGiven(body.scenario) && FindUser(db.users, Username(body.username.value)).None? ==>
              reply == CreateRefused(UnknownUser)
    ensures TextGiven(body.username) && TextGiven(body.scenario) && FindUser(db.users, Username(body.username.value)).Some? ==>
              reply.Created?
    ensures reply.CreateRefused? ==> db.sessions == old(db.sessions) && db.analytics == old(db.analytics)
    ensures reply.Created? ==>
              && TextGiven(body.username) && TextGiven(body.scenario)
              && FindUser(db.users, Username(body.username.value)).Some?
              && var user := FindUser(db.users, Username(body.username.value)).value;
                 && reply == Created(|old(db.sessions)| + 1, body.scenario.value, StartPhase)
                 && db.sessions == old(db.sessions)
                      + [Session(|old(db.sessions)| + 1, user.id, body.scenario.value, InProgress, StartPhase, 0, now, None, None)]
                 && db.analytics == old(db.analytics)
                      + [AnalyticsLog("session_start", body.scenario.value, StartPhase, None,
                                      Some(StartMetadata(user.role, user.businessLine)))]
  {
    if !TextGiven(body.username) || !TextGiven(body.scenario) {
      return CreateRefused(MissingFields);
    }
    var found := FindUser(db.users, Username(body.username.value));
    if found.None? {
      return CreateRefused(UnknownUser);
    }
    var user := found.value;
    var scenario := body.scenario.value;
    ghost var sessions0, messages0 := db.sessions, db.messages;
    ghost var counted := db.CountsAgree();
    assert user in db.users;
    var session := db.CreateSession(user.id, scenario, InProgress, StartPhase, now);
    if counted {
      NewSessionKeepsCounts(sessions0, messages0, session);
    }
    db.Log(AnalyticsLog("session_start", scenario, StartPhase, None, Some(StartMetadata(user.role, user.businessLine))));
    reply := Created(session.id, session.scenario, session.currentPhase);
  }

  // ---------------------------------------------------------------------------
  // GET: the recent sessions of a user

  const ListLimit: nat := 10

  /** The sort key that puts later starts first (`orderBy: { startedAt: 'desc' }`). */
  function Recency(s: Session): int {
    -s.startedAt
  }

  /** The sessions of one user, in table order. */
  function SessionsOf(sessions: seq<Session>, userId: int): (r: seq<Session>)
    ensures forall x :: x in r <==> x in sessions && x.userId == userId
    ensures |r| <= |sessions|
    decreases |sessions|
  {
    if |sessions| == 0 then []
    else
      var rest := SessionsOf(sessions[..|sessions| - 1], userId);
      var last := sessions[|sessions| - 1];
      assert sessions == sessions[..|sessions| - 1] + [last];
      if last.userId == userId then rest + [last] else rest
  }

  /** A listed session with its report (`include: { summaryReport: true }`). */
  datatype SessionEntry = SessionEntry(session: Session, report: Option<Report>)

  /** The first `n` entries. */
  function Take<T>(s: seq<T>, n: nat): (r: seq<T>)
    ensures |r| == if |s| < n then |s| else n
    ensures r == s[..|r|]
  {
    if |s| < n then s else s[..n]
  }

  /** The sessions a user's listing shows: theirs, newest first, at most ten. */
  function Recent(sessions: seq<Session>, userId: int): seq<Session> {
    Take(SortBy(SessionsOf(sessions, userId), Recency), ListLimit)
  }

  datatype ListFailure =
    | MissingUsername  // 400
    | NoSuchUser       // 404

  function ListStatus(f: ListFailure): (status: int)
    ensures status == 400 <==> f == MissingUsername
    ensures status == 404 <==> f == NoSuchUser
  {
    match f
    case MissingUsername => 400
    case NoSuchUser => 404
  }

  /** The `error` text of a refusal. */
  function ListErrorText(f: ListFailure): (text: string)
    ensures f == MissingUsername ==> text == "用户名是必填项"
    ensures f == NoSuchUser ==> text == "用户不存在"
  {
    match f
    case MissingUsername => "用户名是必填项"
    case NoSuchUser => "用户不存在"
  }

  /** `GET /api/sessions?username=…`. */
  function ListSessions(db: Db, username: Option<string>): (r: Result<seq<SessionEntry>, ListFailure>)
    reads db
    ensures !TextGiven(username) ==> r == Err(MissingUsername)
    ensures TextGiven(username) ==> (r == Err(NoSuchUser) <==> FindUser(db.users, Username(username.value)).None?)
    ensures TextGiven(username) && FindUser(db.users, Username(username.value)).Some? ==> r.Ok?
    ensures r.Ok? ==> var recent := Recent(db.sessions, FindUser(db.users, Username(username.value)).value.id);
                      && |r.value| == |recent|
                      && forall k :: 0 <= k < |r.value| ==>
                           r.value[k].session == recent[k] && r.value[k].report == FindReport(db.reports, recent[k].id)
  {
    if !TextGiven(username) then Err(MissingUsername)
    else
      match FindUser(db.users, Username(username.value))
      case None => Err(NoSuchUser)
      case Some(user) =>
        var recent, reports := Recent(db.sessions, user.id), db.reports;
        Ok(seq(|recent|, k requires 0 <= k < |recent| => SessionEntry(recent[k], FindReport(reports, recent[k].id))))
  }

  /** The listing holds ten sessions, or all of the user's when they have fewer; each is
      theirs, they come newest first, and no session left out started later than one
      shown. */
  lemma RecentIsNewestTen(sessions: seq<Session>, userId: int)
    ensures var r := Recent(sessions, userId);
            var mine := SessionsOf(sessions, userId);
            && |r| == (if |mine| < ListLimit then |mine| else ListLimit)
            && (forall k :: 0 <= k < |r| ==> r[k] in sessions && r[k].userId == userId)
            && (forall k, l :: 0 <= k < l < |r| ==> r[k].startedAt >= r[l].startedAt)
            && (forall x, k :: x in mine && x !in r && 0 <= k < |r| ==> x.startedAt <= r[k].startedAt)
            && multiset(r) <= multiset(mine)
  {
    RecentFromTheirs(sessions, userId);
    RecentTheirs(sessions, userId);
    RecentNewestFirst(sessions, userId);
    RecentLeavesOutOlder(sessions, userId);
  }

  /** The listing shows each of the user's sessions at most once. */
  lemma RecentFromTheirs(sessions: seq<Session>, userId: int)
    ensures multiset(Recent(sessions, userId)) <= multiset(SessionsOf(sessions, userId))
  {
    var sorted := SortBy(SessionsOf(sessions, userId), Recency);
    var r := Recent(sessions, userId);
    assert sorted == r + sorted[|r|..];
    assert multiset(sorted) == multiset(r) + multiset(sorted[|r|..]);
  }

  /** Every listed session is one of the user's. */
  lemma RecentTheirs(sessions: seq<Session>, userId: int)
    ensures var r := Recent(sessions, userId);
            forall k :: 0 <= k < |r| ==> r[k] in sessions && r[k].userId == userId
  {
    var mine := SessionsOf(sessions, userId);
    var sorted := SortBy(mine, Recency);
    var r := Recent(sessions, userId);
    forall k | 0 <= k < |r| ensures r[k] in sessions && r[k].userId == userId {
      assert r[k] == sorted[k] && sorted[k] in multiset(mine);
    }
  }

  /** The listing is newest first. */
  lemma RecentNewestFirst(sessions: seq<Session>, userId: int)
    ensures var r := Recent(sessions, userId);
            forall k, l :: 0 <= k < l < |r| ==> r[k].startedAt >= r[l].startedAt
  {
    var sorted := SortBy(SessionsOf(sessions, userId), Recency);
    var r := Recent(sessions, userId);
    forall k, l | 0 <= k < l < |r| ensures r[k].startedAt >= r[l].startedAt {
      assert r[k] == sorted[k] && r[l] == sorted[l];
      assert Recency(sorted[k]) <= Recency(sorted[l]);
    }
  }

  /** None of the user's sessions left out of the listing started later than one shown. */
  lemma RecentLeavesOutOlder(sessions: seq<Session>, userId: int)
    ensures var r := Recent(sessions, userId);
            forall x, k :: x in SessionsOf(sessions, userId) && x !in r && 0 <= k < |r| ==> x.startedAt <= r[k].startedAt
  {
    var mine := SessionsOf(sessions, userId);
    var sorted := SortBy(mine, Recency);
    var r := Recent(sessions, userId);
    forall x, k | x in mine && x !in r && 0 <= k < |r| ensures x.startedAt <= r[k].startedAt {
      assert x in sorted by {
        assert x in multiset(sorted);
      }
      BeyondPrefix(sorted, |r|, x, k, Recency);
    }
  }
}
