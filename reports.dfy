/** `POST /api/reports/generate` (`src/app/api/reports/generate/route.ts`): the session's
    transcript is rendered and put into the report prompt, the model's answer is cut down
    to its JSON span and parsed, and the report replaces any earlier one of the session,
    which is then marked completed with its duration. */
module ReportGeneration {
  import opened Base
  import opened JsString
  import opened JsValue
  import opened Deepseek
  import opened Store
  import opened Requests

  // ---------------------------------------------------------------------------
  // the transcript

  const UserLabel: string := "用户"
  const CoachLabel: string := "AI教练"
  const TurnSeparator: string := "\n\n"

  /** The speaker label of a message: the user, or the coach for any other role. */
  function Speaker(role: Role): string {
    if role == Role.User then UserLabel else CoachLabel
  }

  /** One message of the transcript: its speaker, a colon and its content. */
  function TranscriptLine(m: StoredMessage): string {
    Speaker(m.role) + ": " + m.content
  }

  function TranscriptLines(ms: seq<StoredMessage>): (r: seq<string>)
    ensures |r| == |ms|
  {
    seq(|ms|, i requires 0 <= i < |ms| => TranscriptLine(ms[i]))
  }

  /** The conversation history the report prompt is given: the lines joined by an empty
      line, with no separator after the last. */
  function Transcript(ms: seq<StoredMessage>): string {
    Join(TranscriptLines(ms), TurnSeparator)
  }

  /** The transcript grows message by message: no history renders as the empty text, and
      each further message adds its line, after an empty line unless it is the first. */
  lemma TranscriptAppend(ms: seq<StoredMessage>, m: StoredMessage)
    ensures Transcript([]) == ""
    ensures Transcript(ms + [m])
            == if |ms| == 0 then TranscriptLine(m) else Transcript(ms) + TurnSeparator + TranscriptLine(m)
  {
    var lines := TranscriptLines(ms);
    assert TranscriptLine(m) + "" == TranscriptLine(m);
    assert TranscriptLines(ms + [m]) == lines + [TranscriptLine(m) + ""];
    if |ms| > 0 {
      JoinLastSplit(lines, TranscriptLine(m), "", TurnSeparator);
    } else {
      assert TranscriptLines(ms + [m]) == [TranscriptLine(m)];
    }
  }

  // ---------------------------------------------------------------------------
  // the report prompt (its instruction wording is shortened in this model)

  const ConversationPlaceholder: string := "{conversation_history}"
  const SummaryHead: string := "\n你是一个报告分析助手。\n\n## 第一步：阅读对话记录\n\n"
  const SummaryTail: string := "\n\n## 第四步：输出JSON\n\n只输出JSON，不要有任何解释或其他文字。\n"

  /** SUMMARY_REPORT_PROMPT */
  const SummaryReportPrompt: string := SummaryHead + ConversationPlaceholder + SummaryTail

  /** The prompt with the transcript in place of its placeholder (a first-occurrence
      `replace`). */
  function ReportPrompt(transcript: string): string {
    Replace(SummaryReportPrompt, ConversationPlaceholder, transcript)
  }

  /** The transcript goes where the placeholder was, read as a `replace` replacement
      text: verbatim when it holds no `$`. */
  lemma ReportPromptLayout(transcript: string)
    ensures ReportPrompt(transcript)
            == SummaryHead + Substitution(transcript, ConversationPlaceholder, SummaryHead, SummaryTail) + SummaryTail
    ensures '$' !in transcript ==> ReportPrompt(transcript) == SummaryHead + transcript + SummaryTail
  {
    assert '{' !in SummaryHead;
    NoOccurrenceInside(SummaryHead, ConversationPlaceholder + SummaryTail, ConversationPlaceholder);
    assert SummaryHead + (ConversationPlaceholder + SummaryTail) == SummaryReportPrompt;
    ReplaceWithSubstitution(SummaryHead, ConversationPlaceholder, SummaryTail, transcript);
    if '$' !in transcript {
      SubstitutionLiteral(transcript, ConversationPlaceholder, SummaryHead, SummaryTail);
    }
  }

  /** The single-message request the report is generated with. */
  function ReportRequest(history: seq<StoredMessage>): (r: ChatRequest)
    ensures r.messages == [Message(Role.User, ReportPrompt(Transcript(history)))]
    ensures r.model == "deepseek-chat" && r.stream.None?
    ensures r.maxTokens == Some(2048) && r.temperature == Some(0.1) && r.topP.None?
  {
    ChatRequest("deepseek-chat", [Message(Role.User, ReportPrompt(Transcript(history)))],
                None, Some(2048), Some(0.1), None)
  }

  // ---------------------------------------------------------------------------
  // the JSON span of the answer

  /** A `{` at `i` and a `}` after it at `j`: a match of `/\{[\s\S]*\}/` on `s`. */
  predicate BraceSpan(s: string, i: int, j: int) {
    0 <= i < j < |s| && s[i] == '{' && s[j] == '}'
  }

  /** The match a regular-expression search reports: it starts as early as any match
      can, and the greedy `[\s\S]*` makes it end as late as a match from there can. */
  ghost predicate LeftmostGreedy(s: string, i: int, j: int) {
    && BraceSpan(s, i, j)
    && (forall i', j' :: 0 <= i' < i && i' < j' < |s| ==> !BraceSpan(s, i', j'))
    && (forall j' :: j < j' < |s| ==> !BraceSpan(s, i, j'))
  }

  /** The index of the first `c` in `s`. */
  function FirstOf(s: string, c: char): (r: Option<nat>)
    ensures r.Some? ==> r.value < |s| && s[r.value] == c && forall k :: 0 <= k < r.value ==> s[k] != c
    ensures r.None? ==> forall k :: 0 <= k < |s| ==> s[k] != c
    decreases |s|
  {
    if |s| == 0 then None
    else if s[0] == c then Some(0)
    else match FirstOf(s[1..], c)
      case None => None
      case Some(k) => Some(k + 1)
  }

  /** The index of the last `c` in `s`. */
  function LastOf(s: string, c: char): (r: Option<nat>)
    ensures r.Some? ==> r.value < |s| && s[r.value] == c && forall k :: r.value < k < |s| ==> s[k] != c
    ensures r.None? ==> forall k :: 0 <= k < |s| ==> s[k] != c
    decreases |s|
  {
    if |s| == 0 then None
    else if s[|s| - 1] == c then Some(|s| - 1)
    else LastOf(s[..|s| - 1], c)
  }

  /** Where `content.match(/\{[\s\S]*\}/)` matches: from the first `{` to the last `}`,
      when that `}` comes after that `{`. */
  function JsonSpan(s: string): Option<(nat, nat)> {
    match (FirstOf(s, '{'), LastOf(s, '}'))
    case (Some(i), Some(j)) => if i < j then Some((i, j)) else None
    case _ => None
  }

  /** The span is exactly the match the regular expression search finds. */
  lemma JsonSpanIsRegexMatch(s: string, i: int, j: int)
    ensures JsonSpan(s) == Some((i, j)) <==> LeftmostGreedy(s, i, j)
  {
    if LeftmostGreedy(s, i, j) {
      var f, l := FirstOf(s, '{'), LastOf(s, '}');
      assert f.Some? && f.value <= i;
      assert l.Some? && j <= l.value;
      assert BraceSpan(s, f.value, l.value) && BraceSpan(s, i, l.value);
      assert f.value == i && l.value == j;
    }
  }

  /** Any `}` after a `{` makes the expression match. */
  lemma SpanFound(s: string, i: int, j: int)
    requires BraceSpan(s, i, j)
    ensures JsonSpan(s).Some?
  {
    var f, l := FirstOf(s, '{'), LastOf(s, '}');
    assert f.Some? && f.value <= i;
    assert l.Some? && j <= l.value;
  }

  /** There is no span exactly when no `}` follows any `{`. */
  lemma NoJsonSpan(s: string)
    ensures JsonSpan(s).None? <==> forall i, j :: !BraceSpan(s, i, j)
  {
    if JsonSpan(s).None? {
      forall i, j ensures !BraceSpan(s, i, j) {
        if BraceSpan(s, i, j) {
          SpanFound(s, i, j);
        }
      }
    } else {
      var (i, j) := JsonSpan(s).value;
      assert BraceSpan(s, i, j);
    }
  }

  /** The text handed to `JSON.parse`: the matched span, or the whole answer when the
      expression does not match. */
  function JsonCandidate(content: string): (r: string)
    ensures JsonSpan(content).Some? ==> |r| >= 2 && r[0] == '{' && r[|r| - 1] == '}'
    ensures JsonSpan(content).None? ==> r == content
    ensures forall i, j :: LeftmostGreedy(content, i, j) ==> r == content[i..j + 1]
    ensures (forall i, j :: !BraceSpan(content, i, j)) ==> r == content
  {
    match JsonSpan(content)
    case Some((i, j)) =>
      assert forall i', j' :: LeftmostGreedy(content, i', j') ==> i' == i && j' == j by {
        forall i', j' | LeftmostGreedy(content, i', j') ensures i' == i && j' == j {
          JsonSpanIsRegexMatch(content, i', j');
        }
      }
      assert !forall i', j' :: !BraceSpan(content, i', j') by {
        assert BraceSpan(content, i, j);
      }
      content[i..j + 1]
    case None =>
      assert forall i', j' :: !LeftmostGreedy(content, i', j') by {
        forall i', j' ensures !LeftmostGreedy(content, i', j') {
          JsonSpanIsRegexMatch(content, i', j');
        }
      }
      content
  }

  /** The span is not a balanced-brace scan: of two objects separated by text, the
      candidate is everything from the first `{` to the last `}`, text between included. */
  lemma TwoObjectsMakeOneCandidate(a: string, gap: string, b: string)
    requires '{' !in a && '}' !in a && '{' !in b && '}' !in b && '{' !in gap && '}' !in gap
    ensures JsonCandidate("{" + a + "}" + gap + "{" + b + "}") == "{" + a + "}" + gap + "{" + b + "}"
  {
    var s := "{" + a + "}" + gap + "{" + b + "}";
    var f, l := FirstOf(s, '{'), LastOf(s, '}');
    assert s[0] == '{' && s[|s| - 1] == '}';
    assert f == Some(0) && l == Some(|s| - 1);
    assert s[0..|s|] == s;
  }

  // ---------------------------------------------------------------------------
  // reading the answer

  const InvalidResponse: string := "Invalid response from Deepseek"
  const ParseFailure: string := "Failed to parse report data"

  /** `result.choices?.[0]?.message?.content` on a value that is not null. */
  function ReplyContent(result: Json): (r: Option<Json>)
    requires !result.Null?
    ensures r.Some? ==> result.Object? && "choices" in result.members
  {
    OptProp(OptProp(OptProp(Prop(result, "choices"), "0"), "message"), "content")
  }

  /** A completion of the shape the API answers with gives back its message text. */
  lemma CompletionContent(text: string)
    ensures ReplyContent(Object(map["choices" := Array([Object(map["message" := Object(map["content" := Str(text)])])])]))
            == Some(Str(text))
  {
    assert IndexKey("0") == Some(0) by {
      assert DigitsValue("0", 10) == 0;
    }
  }

  /** From the parsed answer to the parsed report data. Err carries the message of the
      error thrown, or None when the runtime's own error propagates (reading a property
      of null). A falsy content is an invalid response; a content that is not a string
      has no `match` method, which fails inside the parsing `try`. */
  function ReadReport(result: Json, parse: string -> Option<Json>): (r: Result<Json, Option<string>>)
    ensures result.Null? ==> r == Err(None)
    ensures !result.Null? ==> (r == Err(Some(InvalidResponse)) <==> !Truthy(ReplyContent(result)))
    ensures r.Ok? <==> !result.Null? && Truthy(ReplyContent(result)) && ReplyContent(result).value.Str?
                       && parse(JsonCandidate(ReplyContent(result).value.s)).Some?
    ensures r.Ok? ==> r.value == parse(JsonCandidate(ReplyContent(result).value.s)).value
    ensures !result.Null? && Truthy(ReplyContent(result)) && r.Err? ==> r == Err(Some(ParseFailure))
  {
    if result.Null? then Err(None)
    else
      var content := ReplyContent(result);
      if !Truthy(content) then Err(Some(InvalidResponse))
      else match content.value
        case Str(text) =>
          (match parse(JsonCandidate(text))
           case None => Err(Some(ParseFailure))
           case Some(data) => Ok(data))
        case _ => Err(Some(ParseFailure))
  }

  /** The fields of a report as they are written. */
  datatype ReportData = ReportData(topic: string, insights: Json, actionPlans: Json, commitment: Option<string>)

  /** The fields the report is created from. The store refuses a report whose topic is
      not a string, whose insights or action plans are missing (`JSON.stringify` of
      `undefined` is not a string) or whose commitment is truthy but not a string;
      a falsy commitment is stored as null. */
  function ReportFields(data: Json): (r: Result<ReportData, Option<string>>)
    ensures r.Err? ==> r.error.None?
    ensures r.Ok? <==> !data.Null? && Prop(data, "topic").Some? && Prop(data, "topic").value.Str?
                       && Prop(data, "insights").Some? && Prop(data, "action_plans").Some?
                       && (!Truthy(Prop(data, "commitment")) || Prop(data, "commitment").value.Str?)
    ensures r.Ok? ==> && Prop(data, "topic") == Some(Str(r.value.topic))
                      && Prop(data, "insights") == Some(r.value.insights)
                      && Prop(data, "action_plans") == Some(r.value.actionPlans)
                      && (r.value.commitment.None? <==> !Truthy(Prop(data, "commitment")))
                      && (r.value.commitment.Some? ==> Prop(data, "commitment") == Some(Str(r.value.commitment.value)))
  {
    if data.Null? then Err(None)
    else
      match (Prop(data, "topic"), Prop(data, "insights"), Prop(data, "action_plans"))
      case (Some(Str(topic)), Some(insights), Some(plans)) =>
        var commitment := Prop(data, "commitment");
        if !Truthy(commitment) then Ok(ReportData(topic, insights, plans, None))
        else if commitment.value.Str? then Ok(ReportData(topic, insights, plans, Some(commitment.value.s)))
        else Err(None)
      case _ => Err(None)
  }

  /** The whole generation for a history: the gateway call, `response.json()`, the
      content and its JSON span, and the report fields. */
  function Generation(fetch: ChatRequest -> HttpResponse, parse: string -> Option<Json>,
                      history: seq<StoredMessage>): (r: Result<ReportData, Option<string>>)
    ensures r.Ok? ==> fetch(ReportRequest(history)).ok
    ensures !fetch(ReportRequest(history)).ok && BodyText(fetch(ReportRequest(history)).body).Some?
            ==> r == Err(Some(ApiErrorPrefix + BodyText(fetch(ReportRequest(history)).body).value))
  {
    match Chat(fetch, ReportRequest(history))
    case Err(e) => Err(GatewayErrorMessage(e))
    case Ok(response) =>
      match BodyText(response.body)
      case None => Err(None)
      case Some(text) =>
        match parse(text)
        case None => Err(None)
        case Some(result) =>
          match ReadReport(result, parse)
          case Err(m) => Err(m)
          case Ok(data) => ReportFields(data)
  }

  /** On an ok response the generation goes on from the answer's text: a body that cannot
      be read, or text that is not JSON, propagates the runtime's error; a reply that
      `ReadReport` rejects fails with its message; otherwise the report fields of the
      parsed data decide the outcome. */
  lemma GenerationOnOk(fetch: ChatRequest -> HttpResponse, parse: string -> Option<Json>,
                       history: seq<StoredMessage>)
    requires fetch(ReportRequest(history)).ok
    ensures BodyText(fetch(ReportRequest(history)).body).None? ==> Generation(fetch, parse, history) == Err(None)
    ensures var text := BodyText(fetch(ReportRequest(history)).body);
            text.Some? && parse(text.value).None? ==> Generation(fetch, parse, history) == Err(None)
    ensures var text := BodyText(fetch(ReportRequest(history)).body);
            text.Some? && parse(text.value).Some? && ReadReport(parse(text.value).value, parse).Err?
            ==> Generation(fetch, parse, history) == Err(ReadReport(parse(text.value).value, parse).error)
    ensures var text := BodyText(fetch(ReportRequest(history)).body);
            text.Some? && parse(text.value).Some? && ReadReport(parse(text.value).value, parse).Ok?
            ==> Generation(fetch, parse, history) == ReportFields(ReadReport(parse(text.value).value, parse).value)
  {
  }

  // ---------------------------------------------------------------------------
  // durations

  const MinuteMillis: int := 60000
  const SecondMillis: int := 1000

  /** `Math.round(elapsed / 60000)`: the nearest whole minute, halves rounded up. */
  function DurationMinutes(elapsed: int): (r: int)
    ensures MinuteMillis * r - MinuteMillis / 2 <= elapsed < MinuteMillis * r + MinuteMillis / 2
  {
    (elapsed + MinuteMillis / 2) / MinuteMillis
  }

  /** `Math.round(elapsed / 1000)`: the nearest whole second, halves rounded up. */
  function DurationSeconds(elapsed: int): (r: int)
    ensures SecondMillis * r - SecondMillis / 2 <= elapsed < SecondMillis * r + SecondMillis / 2
  {
    (elapsed + SecondMillis / 2) / SecondMillis
  }

  /** The two roundings agree: the minutes are the seconds rounded to the nearest minute,
      give or take one. */
  lemma DurationsAgree(elapsed: int)
    ensures 60 * DurationMinutes(elapsed) - 30 <= DurationSeconds(elapsed) <= 60 * DurationMinutes(elapsed) + 30
  {
  }

  // ---------------------------------------------------------------------------
  // the handler

  /** The JSON body of a generation request. */
  datatype GenerateBody = GenerateBody(sessionId: IdField)

  /** Why a generation request was answered with an error. */
  datatype ReportFailure =
    | MissingSessionId          // 400
    | SessionNotFound           // 404
    | Failed(message: Option<string>)  // 500; None where the runtime's or the store's message is passed on

  /** The report as the response shows it: the stored JSON texts parsed back. */
  datatype ReportView = ReportView(id: int, topic: string, insights: Option<Json>, actionPlans: Option<Json>,
                                   commitment: Option<string>, generatedAt: int)

  datatype GenerateReply = Refused(failure: ReportFailure) | Generated(report: ReportView)

  function GenerateStatus(f: ReportFailure): (status: int)
    ensures status in {400, 404, 500}
    ensures status == 400 <==> f == MissingSessionId
    ensures status == 404 <==> f == SessionNotFound
  {
    match f
    case MissingSessionId => 400
    case SessionNotFound => 404
    case Failed(_) => 500
  }

  /** The `error` text of an error response; None where it ends in a message this model
      does not fix. */
  function GenerateErrorText(f: ReportFailure): (text: Option<string>)
    ensures f.MissingSessionId? ==> text == Some("会话 ID 是必填项")
    ensures f.SessionNotFound? ==> text == Some("会话不存在")
    ensures f.Failed? && f.message.Some? ==> text == Some("生成报告失败: " + f.message.value)
    ensures text.None? <==> f.Failed? && f.message.None?
  {
    match f
    case MissingSessionId => Some("会话 ID 是必填项")
    case SessionNotFound => Some("会话不存在")
    case Failed(m) => if m.Some? then Some("生成报告失败: " + m.value) else None
  }

  /** The response view of a stored report: `JSON.parse` of the stored insights and
      action plans. A field the parser rejects is None here, where the route's
      `JSON.parse` would throw; the stored text is what `JSON.stringify` wrote, so
      with a real JSON pair (`RoundTrips`) that case does not arise. */
  function View(row: Report, parse: string -> Option<Json>): ReportView {
    ReportView(row.id, row.topic, parse(row.insights), parse(row.actionPlans), row.commitment, row.generatedAt)
  }

  /** `JSON.parse` reads back what `JSON.stringify` wrote. */
  ghost predicate RoundTrips(parse: string -> Option<Json>, stringify: Json -> string) {
    forall v :: parse(stringify(v)) == Some(v)
  }

  /** The row a generation writes. */
  function ReportRow(id: int, s: Session, data: ReportData, stringify: Json -> string, now: int): (row: Report)
    ensures row.sessionId == s.id && row.userId == s.userId && row.topic == data.topic
  {
    Report(id, s.id, s.userId, data.topic, stringify(data.insights), stringify(data.actionPlans), data.commitment, now)
  }

  /** The view of a written report shows the fields it was generated from, whenever
      parsing reads back what stringifying wrote. */
  lemma ViewShowsData(id: int, s: Session, data: ReportData, parse: string -> Option<Json>,
                      stringify: Json -> string, now: int)
    requires parse(stringify(data.insights)) == Some(data.insights)
    requires parse(stringify(data.actionPlans)) == Some(data.actionPlans)
    ensures var v := View(ReportRow(id, s, data, stringify, now), parse);
            v.topic == data.topic && v.insights == Some(data.insights) && v.actionPlans == Some(data.actionPlans)
            && v.commitment == data.commitment && v.id == id
  {
  }

  /** The session a generation request names, if the id is given and the session exists. */
  function GenerateTarget(db: Db, body: GenerateBody): (r: Option<Session>)
    reads db
    ensures r.Some? ==> IdGiven(body.sessionId) && IdValue(body.sessionId).Some?
    ensures IdGiven(body.sessionId) && IdValue(body.sessionId).Some? ==> r == db.FindSession(IdValue(body.sessionId).value)
  {
    var id := IdValue(body.sessionId);
    if !IdGiven(body.sessionId) || id.None? then None else db.FindSession(id.value)
  }

  /** The reports once the session's earlier report, if any, is deleted. */
  function WithoutSessionReport(reports: seq<Report>, sessionId: int): (r: seq<Report>)
    requires IdsIncrease(reports)
    requires forall i, j :: 0 <= i < j < |reports| ==> reports[i].sessionId != reports[j].sessionId
    ensures forall x :: x in r <==> x in reports && x.sessionId != sessionId
    ensures IdsIncrease(r)
  {
    match FindReport(reports, sessionId)
    case None => reports
    case Some(prior) =>
      assert forall x :: x in reports && x.sessionId == sessionId ==> x == prior by {
        forall x | x in reports && x.sessionId == sessionId ensures x == prior {
          var i, j :| 0 <= i < |reports| && reports[i] == x && 0 <= j < |reports| && reports[j] == prior;
        }
      }
      assert forall x :: x in reports && x.id == prior.id ==> x == prior by {
        forall x | x in reports && x.id == prior.id ensures x == prior {
          var i, j :| 0 <= i < |reports| && reports[i] == x && 0 <= j < |reports| && reports[j] == prior;
          assert !(i < j) && !(j < i);
        }
      }
      WithoutReport(reports, prior.id)
  }

  /** `summaryReport.findUnique` followed by `summaryReport.delete` when a report exists. */
  method DropSessionReport(db: Db, sessionId: int)
    requires db.Valid()
    modifies db
    ensures db.Valid()
    ensures db.reports == WithoutSessionReport(old(db.reports), sessionId)
    ensures db.users == old(db.users) && db.sessions == old(db.sessions) && db.messages == old(db.messages)
    ensures db.analytics == old(db.analytics) && db.nextReportId == old(db.nextReportId)
  {
    var existing := FindReport(db.reports, sessionId);
    if existing.Some? {
      db.DeleteReport(existing.value.id);
    }
  }

  /** The writes of a successful generation: the report, the session's completion and
      the `report_generated` analytics entry. */
  method SaveReport(db: Db, s: Session, data: ReportData, stringify: Json -> string, now: int)
    returns (row: Report)
    requires db.Valid() && 1 <= s.id <= |db.sessions| && FindReport(db.reports, s.id).None?
    modifies db
    ensures db.Valid()
    ensures row == ReportRow(old(db.nextReportId), s, data, stringify, now)
    ensures db.reports == old(db.reports) + [row] && db.nextReportId == old(db.nextReportId) + 1
    ensures db.sessions == Completion(old(db.sessions), s.id, now, DurationMinutes(now - s.startedAt))
    ensures db.analytics == old(db.analytics)
              + [AnalyticsLog("report_generated", s.scenario, s.currentPhase, Some(DurationSeconds(now - s.startedAt)), None)]
    ensures db.users == old(db.users) && db.messages == old(db.messages)
  {
    ghost var sessions0, analytics0 := db.sessions, db.analytics;
    row := db.CreateReport(s.id, s.userId, data.topic, stringify(data.insights), stringify(data.actionPlans),
                           data.commitment, now);
    ghost var reports1 := db.reports;
    db.CompleteSession(s.id, now, DurationMinutes(now - s.startedAt));
    ghost var sessions2 := db.sessions;
    db.Log(AnalyticsLog("report_generated", s.scenario, s.currentPhase, Some(DurationSeconds(now - s.startedAt)), None));
    assert db.reports == reports1 && db.sessions == sessions2;
  }

  /** The generation for an existing session: the earlier report is deleted first, and
      only a generation that succeeds writes anything more. */
  method Regenerate(db: Db, s: Session, fetch: ChatRequest -> HttpResponse, parse: string -> Option<Json>,
                    stringify: Json -> string, now: int)
    returns (reply: GenerateReply)
    requires db.Valid() && 1 <= s.id <= |db.sessions|
    modifies db
    ensures db.Valid()
    ensures db.users == old(db.users) && db.messages == old(db.messages)
    ensures GenerationWrites(reply, s, Generation(fetch, parse, old(db.SessionMessages(s.id))),
                             old(db.reports), old(db.sessions), old(db.analytics), old(db.nextReportId),
                             db.reports, db.sessions, db.analytics, db.nextReportId, parse, stringify, now)
  {
    var history := db.SessionMessages(s.id);
    DropSessionReport(db, s.id);
    var g := Generation(fetch, parse, history);
    if g.Err? {
      return Refused(Failed(g.error));
    }
    assert FindReport(db.reports, s.id).None?;
    var row := SaveReport(db, s, g.value, stringify, now);
    reply := Generated(View(row, parse));
  }

  /** The writes of a generation for session `s`, from the tables before (`reports0`,
      `sessions0`, `analytics0`, `nextId0`) to the tables after: the session's earlier
      report is deleted in any case; a failure writes nothing more, and a success appends
      the new row, completes the session and logs `report_generated`. */
  ghost predicate GenerationWrites(reply: GenerateReply, s: Session, g: Result<ReportData, Option<string>>,
                                   reports0: seq<Report>, sessions0: seq<Session>, analytics0: seq<AnalyticsLog>, nextId0: int,
                                   reports: seq<Report>, sessions: seq<Session>, analytics: seq<AnalyticsLog>, nextId: int,
                                   parse: string -> Option<Json>, stringify: Json -> string, now: int)
    requires IdsIncrease(reports0)
    requires forall i, j :: 0 <= i < j < |reports0| ==> reports0[i].sessionId != reports0[j].sessionId
  {
    var kept := WithoutSessionReport(reports0, s.id);
    && (g.Err? ==> && reply == Refused(Failed(g.error)) && reports == kept
                   && sessions == sessions0 && analytics == analytics0 && nextId == nextId0)
    && (g.Ok? ==> var row := ReportRow(nextId0, s, g.value, stringify, now);
                  && reply == Generated(View(row, parse))
                  && reports == kept + [row] && nextId == nextId0 + 1
                  && 1 <= s.id <= |sessions0|
                  && sessions == Completion(sessions0, s.id, now, DurationMinutes(now - s.startedAt))
                  && analytics == analytics0
                       + [AnalyticsLog("report_generated", s.scenario, s.currentPhase,
                                       Some(DurationSeconds(now - s.startedAt)), None)])
  }

  /** What a generation for session `s` leaves behind, given the generation's result:
      a failure is answered with its error and leaves the session without a report; a
      success answers with the view of the new row, which is then the session's report,
      and the session is completed. When stringify and parse round-trip, the view shows
      the generated insights and action plans. */
  ghost predicate GenerationOutcome(reply: GenerateReply, reports: seq<Report>, sessions: seq<Session>, s: Session,
                                    g: Result<ReportData, Option<string>>, nextId: int,
                                    parse: string -> Option<Json>, stringify: Json -> string, now: int)
  {
    && (g.Err? ==> reply == Refused(Failed(g.error)) && FindReport(reports, s.id).None?)
    && (g.Ok? ==> var row := ReportRow(nextId, s, g.value, stringify, now);
                  && reply == Generated(View(row, parse))
                  && FindReport(reports, s.id) == Some(row)
                  && 1 <= s.id <= |sessions| && sessions[s.id - 1].status == Completed
                  && (RoundTrips(parse, stringify) ==>
                        reply.report.insights == Some(g.value.insights)
                        && reply.report.actionPlans == Some(g.value.actionPlans)))
  }

  /** `POST /api/reports/generate`. Nothing is written unless the id is given and the
      session exists. Then the session's earlier report is gone whatever happens next:
      afterwards the session has exactly the new report, or none when generation fails. */
  method HandleGenerate(db: Db, body: GenerateBody, fetch: ChatRequest -> HttpResponse,
                        parse: string -> Option<Json>, stringify: Json -> string, now: int)
    returns (reply: GenerateReply)
    requires db.Valid()
    modifies db
    ensures db.Valid()
    ensures db.users == old(db.users) && db.messages == old(db.messages)
    ensures !IdGiven(body.sessionId) ==> reply == Refused(MissingSessionId)
    ensures IdGiven(body.sessionId) && IdValue(body.sessionId).None? ==> reply == Refused(Failed(None))
    ensures (IdGiven(body.sessionId) && IdValue(body.sessionId).Some?
             && old(db.FindSession(IdValue(body.sessionId).value)).None?) ==> reply == Refused(SessionNotFound)
    ensures old(GenerateTarget(db, body)).None? ==>
              db.sessions == old(db.sessions) && db.reports == old(db.reports)
              && db.analytics == old(db.analytics) && db.nextReportId == old(db.nextReportId)
    ensures old(GenerateTarget(db, body)).Some? ==>
              var s := old(GenerateTarget(db, body)).value;
              var g := Generation(fetch, parse, old(db.SessionMessages(s.id)));
              && GenerationOutcome(reply, db.reports, db.sessions, s, g, old(db.nextReportId), parse, stringify, now)
              && old(db.Valid())
              && GenerationWrites(reply, s, g, old(db.reports), old(db.sessions), old(db.analytics), old(db.nextReportId),
                                  db.reports, db.sessions, db.analytics, db.nextReportId, parse, stringify, now)
  {
    var checked := CheckGenerate(db, body);
    if checked.Err? {
      return Refused(checked.error);
    }
    reply := GenerateOnSession(db, checked.value, fetch, parse, stringify, now);
  }

  /** The checks made before anything is written: a missing id is refused with 400, an
      id `parseInt` reads as NaN with 500 (the store rejects it), an unknown session with
      404; otherwise the session the request names. */
  method CheckGenerate(db: Db, body: GenerateBody) returns (checked: Result<Session, ReportFailure>)
    requires db.Valid()
    ensures checked.Ok? <==> GenerateTarget(db, body).Some?
    ensures checked.Ok? ==> Some(checked.value) == GenerateTarget(db, body)
    ensures checked.Ok? ==> 1 <= checked.value.id <= |db.sessions| && checked.value == db.sessions[checked.value.id - 1]
    ensures !IdGiven(body.sessionId) ==> checked == Err(MissingSessionId)
    ensures IdGiven(body.sessionId) && IdValue(body.sessionId).None? ==> checked == Err(Failed(None))
    ensures (IdGiven(body.sessionId) && IdValue(body.sessionId).Some?
             && db.FindSession(IdValue(body.sessionId).value).None?) ==> checked == Err(SessionNotFound)
  {
    if !IdGiven(body.sessionId) {
      return Err(MissingSessionId);
    }
    var id := IdValue(body.sessionId);
    if id.None? {
      return Err(Failed(None));
    }
    var found := db.FindSession(id.value);
    if found.None? {
      return Err(SessionNotFound);
    }
    checked := Ok(found.value);
  }

  /** The generation for a session that exists, as the session's reports show it
      afterwards: exactly the new report, or none when generation fails. */
  method GenerateOnSession(db: Db, s: Session, fetch: ChatRequest -> HttpResponse, parse: string -> Option<Json>,
                           stringify: Json -> string, now: int)
    returns (reply: GenerateReply)
    requires db.Valid() && 1 <= s.id <= |db.sessions| && s == db.sessions[s.id - 1]
    modifies db
    ensures db.Valid()
    ensures db.users == old(db.users) && db.messages == old(db.messages)
    ensures GenerationOutcome(reply, db.reports, db.sessions, s, Generation(fetch, parse, old(db.SessionMessages(s.id))),
                              old(db.nextReportId), parse, stringify, now)
    ensures old(db.Valid()) && GenerationWrites(reply, s, Generation(fetch, parse, old(db.SessionMessages(s.id))),
                              old(db.reports), old(db.sessions), old(db.analytics), old(db.nextReportId),
                              db.reports, db.sessions, db.analytics, db.nextReportId, parse, stringify, now)
  {
    ghost var g := Generation(fetch, parse, db.SessionMessages(s.id));
    ghost var reports0, sessions0, analytics0, nextId0 := db.reports, db.sessions, db.analytics, db.nextReportId;
    reply := Regenerate(db, s, fetch, parse, stringify, now);
    WritesGiveOutcome(reply, s, g, reports0, sessions0, analytics0, nextId0,
                      db.reports, db.sessions, db.analytics, db.nextReportId, parse, stringify, now);
  }

  /** The writes of a generation leave the session with exactly the new report, or with
      none when generation fails. */
  lemma WritesGiveOutcome(reply: GenerateReply, s: Session, g: Result<ReportData, Option<string>>,
                          reports0: seq<Report>, sessions0: seq<Session>, analytics0: seq<AnalyticsLog>, nextId0: int,
                          reports: seq<Report>, sessions: seq<Session>, analytics: seq<AnalyticsLog>, nextId: int,
                          parse: string -> Option<Json>, stringify: Json -> string, now: int)
    requires IdsIncrease(reports0)
    requires forall i, j :: 0 <= i < j < |reports0| ==> reports0[i].sessionId != reports0[j].sessionId
    requires GenerationWrites(reply, s, g, reports0, sessions0, analytics0, nextId0,
                              reports, sessions, analytics, nextId, parse, stringify, now)
    ensures GenerationOutcome(reply, reports, sessions, s, g, nextId0, parse, stringify, now)
  {
    var kept := WithoutSessionReport(reports0, s.id);
    if g.Ok? {
      var row := ReportRow(nextId0, s, g.value, stringify, now);
      ReportFoundAfter(kept, row, s.id);
      if RoundTrips(parse, stringify) {
        ViewShowsData(nextId0, s, g.value, parse, stringify, now);
      }
    }
  }

  /** A report appended after reports of other sessions is the one found for its session. */
  lemma ReportFoundAfter(kept: seq<Report>, row: Report, sessionId: int)
    requires row.sessionId == sessionId
    requires forall x :: x in kept ==> x.sessionId != sessionId
    ensures FindReport(kept + [row], sessionId) == Some(row)
  {
    var r := FindReport(kept + [row], sessionId);
    assert r.Some? by {
      assert row in kept + [row];
    }
  }
}
