# Coaching sessions, chat relay and report generation

This project is a Dafny model of the server core of an ICF-style AI coaching web
application. It has four parts.

- **Sessions API** (`POST /api/sessions`, `GET /api/sessions`, module `SessionsApi`).
  POST checks the body and creates a coaching session for a known user: the session
  starts `in_progress` in phase `goal`, and a `session_start` analytics entry is
  appended. GET lists a user's ten newest sessions, each with its summary report.
- **Coaching chat** (`POST /api/coaching/chat`, module `CoachingChat`).
  - It checks the body, loads the session with its owner and its history, stores the
    user's message and bumps the session's `messageCount`.
  - It fills the coaching system prompt from the owner's profile, the phase and the
    scenario, and sends `[system] ++ history ++ [message]` to the gateway as a
    streaming request.
  - It relays the upstream server-sent events. Only non-blank `data: ` lines are read;
    `[DONE]` and unparseable payloads are skipped; every non-empty delta is re-emitted
    as `data: {"text":…}` and appended to the reply.
  - When the upstream stream ends cleanly, it stores the assistant reply, bumps the
    count again and sends `data: [DONE]`.
- **Report generation** (`POST /api/reports/generate`, module `ReportGeneration`).
  - It deletes the session's earlier report and renders the transcript (`用户:` /
    `AI教练:` lines joined by blank lines).
  - It asks the gateway for a JSON report and picks the JSON candidate from the first
    `{` to the last `}`.
  - It writes the report with its insights and action plans serialised, completes the
    session with its duration in minutes, and logs the duration in seconds.
- **Gateway client** (`src/lib/deepseek.ts`, module `Deepseek`). `chat` fails with
  `Deepseek API error: <body>` on a non-ok response; `chatStream` forces
  `stream: true`. The module also holds the `CoachingPhase` and `Scenario`
  enumerations, the system-prompt template with its two placeholders, and the
  scenario prompts.

Supporting modules:

- `Base`: `Option`, `Result`.
- `JsString`: the JavaScript string operations the routes rely on, with their exact
  semantics. These are `split`, `join`, `trim`, `startsWith`, `indexOf`,
  `String.prototype.replace` with a string pattern (first occurrence only, with the
  `$$`, `$&`, `` $` `` and `$'` substitution patterns) and `parseInt`.
- `JsValue`: JSON values, truthiness and optional chaining.
- `Requests`: request-body fields.
- `Ordering`: a stable insertion sort by an integer key.
- `Store`: the database.

How the model stands in for the runtime:

- The database is the class `Store.Db`. Its users, sessions, messages, reports and
  analytics log are sequence fields, changed in place by methods that state the
  whole new state. `Db.Valid()` keeps ids dense and unique and keeps every row's
  references valid. `Db.CountsAgree()` keeps each session's `messageCount` equal to
  its number of stored messages.
- The gateway is a function from request to response.
- `JSON.parse` and `JSON.stringify` are function parameters.
- The response body is a sequence of text chunks.
- The clock is a single `now`.

Behaviours of the code worth knowing, all of which the model keeps:

- **JSON span.** The report's JSON span is the leftmost-greedy match of
  `/\{[\s\S]*\}/`: from the first `{` to the last `}`. It is not a balanced object,
  so a reply with two objects yields one span covering both
  (`ReportGeneration.TwoObjectsMakeOneCandidate`).
- **Delete, then regenerate.** The old report is deleted before the gateway is
  called, and nothing restores it. A regeneration that fails leaves the session with
  no report at all (`ReportGeneration.HandleGenerate`).
- **`$'` in a profile field.** The profile text is inserted with
  `String.prototype.replace`, so a `$'` typed into a profile field is expanded to the
  template text after the placeholder (`CoachingChat.DollarQuoteInProfile`).
- **Inherited scenario keys.** The scenario prompt is looked up in an object
  literal, so a scenario such as `toString` or `__proto__` finds the value inherited
  from `Object.prototype` and appends its string form rather than `undefined`
  (`CoachingChat.InheritedScenarios`).
- **Lines split across chunks.** The relay splits each chunk on its own, so a `data:`
  line cut across two chunks is dropped (`CoachingChat.LineCutAcrossChunks`).

## Model

| member | source | states |
|---|---|---|
| `Requests.IdValueParses` | src/app/api/coaching/chat/route.ts:23 | the id is `parseInt` of the field's text: `String(n)` for a number, the text itself for a string, `"undefined"` for a missing field |
| `Requests.UndefinedIsNaN` | src/app/api/coaching/chat/route.ts:23 | `parseInt(undefined)` is NaN, so a missing id names no session |
| `Requests.DecimalTextId` | src/app/api/reports/generate/route.ts:80 | a `sessionId` sent as the decimal text of n names session n |
| `JsString.Split` | src/app/api/coaching/chat/route.ts:120 | `split` always yields at least one piece |
| `JsString.SplitPiecesLackSeparator` | src/app/api/coaching/chat/route.ts:120 | no piece of `split` contains the separator |
| `JsString.JoinSplit` | src/app/api/coaching/chat/route.ts:120 | joining the pieces of `split` with the separator gives back the chunk, so splitting loses no text |
| `JsString.SplitJoin` | src/app/api/coaching/chat/route.ts:120 | splitting pieces that lack the separator, once joined by it, gives back exactly those pieces |
| `JsString.SplitWithoutSeparator` | src/app/api/coaching/chat/route.ts:120 | text without the separator splits into itself alone |
| `JsString.SplitAfterPiece` | src/app/api/coaching/chat/route.ts:120 | splitting a separator-free piece, the separator and a rest yields the piece, then the pieces of the rest |
| `JsString.JoinAvoids` | src/app/api/reports/generate/route.ts:109-111 | a character found in neither the pieces nor the separator is not in their join |
| `JsString.TrimStart` | src/app/api/coaching/chat/route.ts:62 | the result is a suffix; everything dropped is whitespace; the result does not start with whitespace |
| `JsString.TrimEnd` | src/app/api/coaching/chat/route.ts:62 | the result is a prefix; everything dropped is whitespace; the result does not end with whitespace |
| `JsString.Trim` | src/app/api/coaching/chat/route.ts:62 | the result neither starts nor ends with whitespace, is empty exactly when the text is all whitespace, and is no longer than the text |
| `JsString.TrimEndDropsWhitespace` | src/app/api/coaching/chat/route.ts:62 | trailing whitespace does not change the end-trimmed text |
| `JsString.TrimEndAfter` | src/app/api/coaching/chat/route.ts:62 | end-trimming text after a non-whitespace character only trims that tail |
| `JsString.TrimStartDropsWhitespace` | src/app/api/coaching/chat/route.ts:62 | leading whitespace before a non-whitespace character is dropped, and nothing else is |
| `JsString.TrimFramed` | src/app/api/coaching/chat/route.ts:56-62 | trimming a body framed by whitespace leaves its fixed head and the end-trimmed last field |
| `JsString.BlankIffAllWhitespace` | src/app/api/coaching/chat/route.ts:120 | `line.trim() !== ''` fails exactly when the line is all whitespace |
| `JsString.IndexOfFrom` | src/app/api/coaching/chat/route.ts:66-67 | the first occurrence at or after a position, or proof that none exists |
| `JsString.IndexOf` | src/app/api/coaching/chat/route.ts:66-67 | the first occurrence of a pattern, or proof that it occurs nowhere |
| `JsString.SubstitutionLiteral` | src/app/api/coaching/chat/route.ts:66-67 | a replacement without `$` is inserted literally |
| `JsString.SubstitutionQuoteAfter` | src/app/api/coaching/chat/route.ts:67 | a `$'` inside a replacement inserts the text after the match |
| `JsString.SubstitutionQuoteFirst` | src/app/api/coaching/chat/route.ts:67 | a replacement that begins with `$'` begins with the text after the match |
| `JsString.Replace` | src/app/api/coaching/chat/route.ts:66-67 | with no occurrence the text is unchanged; otherwise exactly the first occurrence is swapped for the substituted replacement, with the text before and after it kept |
| `JsString.ReplaceWithSubstitution` | src/app/api/coaching/chat/route.ts:66-67 | `replace` swaps the first occurrence of the pattern for the substituted replacement and keeps the text around it |
| `JsString.ReplaceAfter` | src/app/api/coaching/chat/route.ts:66-67 | when the head cannot hold the pattern, `replace` acts on the occurrence right after the head |
| `JsString.ReplaceInTurn` | src/app/api/coaching/chat/route.ts:65-67 | two chained `replace` calls fill two placeholders in order, the first one literally |
| `JsString.DigitPrefix` | src/app/api/coaching/chat/route.ts:23 | `parseInt` reads the longest prefix of digits of the radix |
| `JsString.IntToString` | src/app/api/coaching/chat/route.ts:23 | `String(n)` is a `-` exactly for a negative n, then decimal digits |
| `JsString.ParseInt` | src/app/api/coaching/chat/route.ts:23 | `parseInt` of blank text is NaN, and a number is only read from text that holds a decimal digit |
| `JsString.DecimalValue` | src/app/api/coaching/chat/route.ts:23 | the decimal digits of n read back as n |
| `JsString.UnsignedDigits` | src/app/api/coaching/chat/route.ts:23 | a digit string without a `0x` prefix is read in radix 10 to its value |
| `JsString.DecimalNumeral` | src/app/api/coaching/chat/route.ts:23 | the decimal text of n reads as n |
| `JsString.ParseIntUntrimmed` | src/app/api/coaching/chat/route.ts:23 | text that starts with no whitespace is read as it stands |
| `JsString.SignedNumeral` | src/app/api/coaching/chat/route.ts:23 | a leading `-` negates the value `parseInt` reads |
| `JsString.ParseIntDecimal` | src/app/api/coaching/chat/route.ts:23 | the signed decimal text of m reads as m or -m |
| `JsString.ParseIntRoundTrip` | src/app/api/coaching/chat/route.ts:23 | `parseInt(String(n)) == n` for every integer n |
| `JsValue.IndexKey` | src/app/api/coaching/chat/route.ts:129 | only a key made of digits indexes an array under optional chaining |
| `Ordering.Insert` | src/app/api/sessions/route.ts:85 | inserting into a sorted sequence keeps it sorted and adds exactly that element |
| `Ordering.SortBy` | src/app/api/sessions/route.ts:85 | `orderBy` yields a sorted permutation of the rows |
| `Ordering.SortSortedIsIdentity` | src/app/api/coaching/chat/route.ts:27 | rows already in key order are left as they are |
| `Deepseek.Chat` | src/lib/deepseek.ts:27-43 | `chat` succeeds exactly when the response is ok, and then returns it; otherwise it fails with the body text, or with an unreadable-body error |
| `Deepseek.ApiErrorMessageCarriesBody` | src/lib/deepseek.ts:37-40 | the message of a failed call is `Deepseek API error: ` followed by the response body |
| `Deepseek.StreamingRequest` | src/lib/deepseek.ts:45-47 | `chatStream` sets `stream` to true and forwards every other field unchanged |
| `Deepseek.StreamingRequestIdempotent` | src/lib/deepseek.ts:45-47 | forcing `stream` twice is forcing it once; a request that already streams is unchanged |
| `Deepseek.ChatStream` | src/lib/deepseek.ts:45-47 | `chatStream` succeeds exactly when the response to the streaming request is ok and then returns it; otherwise it fails with that response's body text, or with an unreadable-body error |
| `Deepseek.ParsePhase` | src/lib/deepseek.ts:132 | a phase name is recognised exactly when some `CoachingPhase` has that name |
| `Deepseek.PhaseNames` | src/lib/deepseek.ts:132 | the phase names round-trip and are exactly `goal`, `reality`, `options`, `will` |
| `Deepseek.ParseScenario` | src/lib/deepseek.ts:133 | a scenario key is recognised exactly when some `Scenario` has that key |
| `Deepseek.ScenarioNames` | src/lib/deepseek.ts:133 | the scenario keys round-trip and are exactly `work_problem` and `career_development` |
| `Deepseek.ScenarioPrompt` | src/lib/deepseek.ts:83-100 | `SCENARIO_PROMPTS` has an entry exactly for the two scenario keys, with no fallback |
| `Deepseek.LabelsPlain` | src/lib/deepseek.ts:55-81 | the fixed text of the template holds no `{` and no `$` outside its placeholders |
| `Deepseek.TemplateBraces` | src/lib/deepseek.ts:55-81 | the only `{` in `COACHING_SYSTEM_PROMPT` open its two placeholders |
| `Deepseek.TemplatePlaceholdersOnce` | src/lib/deepseek.ts:79-80 | `{current_phase}` and `{user_profile}` each occur exactly once, with the phase first |
| `Store.FindUser` | src/app/api/sessions/route.ts:17-26 | the user with that username (or id, for a session's owner), or proof that there is none |
| `Store.MessagesOf` | src/app/api/coaching/chat/route.ts:24-28 | a message is among a session's messages exactly when it is stored and names that session |
| `Store.MessagesOfCounts` | src/app/api/coaching/chat/route.ts:24-28 | each of the session's messages is kept as often as it is stored, and no other message is kept |
| `Store.MessagesOfAppend` | src/app/api/coaching/chat/route.ts:40-47 | storing a message adds it to its own session's messages only |
| `Store.FindReport` | src/app/api/reports/generate/route.ts:97-99 | the report of a session, or proof that it has none |
| `Store.ReportsOf` | src/app/api/sessions/route.ts:84-90 | exactly the reports of a session |
| `Store.WithoutReport` | src/app/api/reports/generate/route.ts:103-105 | deleting a report by id keeps exactly the other reports, in increasing id order |
| `Store.Bump` | src/app/api/coaching/chat/route.ts:50-53 | the increment changes one session's `messageCount` by n and no other session |
| `Store.RecordingKeepsCounts` | src/app/api/coaching/chat/route.ts:40-53 | storing a message and bumping its session's count keeps every count equal to the number of stored messages |
| `Store.BumpTwice` | src/app/api/coaching/chat/route.ts:156-159 | two increments of one session add two |
| `Store.Db.constructor` | src/lib/prisma.ts:1-28 | the store starts with its users and no sessions, messages, reports or logs, and is valid |
| `Store.Db.FindSession` | src/app/api/coaching/chat/route.ts:22-30 | `findUnique` by id finds a session exactly when one has that id |
| `Store.Db.Owner` | src/app/api/coaching/chat/route.ts:22-30 | the included user is the session's owner |
| `Store.Db.SessionMessages` | src/app/api/coaching/chat/route.ts:24-28 | the included messages are exactly the stored messages of the session, in ascending creation order |
| `Store.Db.CreateMessage` | src/app/api/coaching/chat/route.ts:40-47 | `message.create` appends one row with the next id and changes nothing else |
| `Store.Db.IncrementMessageCount` | src/app/api/coaching/chat/route.ts:50-53 | `messageCount: { increment: 1 }` bumps that session only |
| `Store.Db.CreateSession` | src/app/api/sessions/route.ts:29-36 | `session.create` appends one row with the next id and changes nothing else |
| `Store.Db.CompleteSession` | src/app/api/reports/generate/route.ts:179-188 | `session.update` sets status, end and duration of that session only |
| `Store.Completion` | src/app/api/reports/generate/route.ts:179-188 | the completed session has status `completed`, the given end and duration, and its other fields unchanged; every other session is unchanged |
| `Store.Db.DeleteReport` | src/app/api/reports/generate/route.ts:103-105 | `summaryReport.delete` removes that report only |
| `Store.Db.CreateReport` | src/app/api/reports/generate/route.ts:167-176 | `summaryReport.create` appends one report for a session that has none |
| `Store.Db.Log` | src/app/api/sessions/route.ts:39-49 | `analyticsLog.create` appends one entry and changes nothing else |
| `SessionsApi.CreateStatus` | src/app/api/sessions/route.ts:9-26 | 400 exactly for missing fields, 404 exactly for an unknown user |
| `SessionsApi.CreateErrorText` | src/app/api/sessions/route.ts:9-26 | `用户名和场景是必填项` for missing fields, `用户不存在，请先完成画像采集` for an unknown user |
| `SessionsApi.NewSessionKeepsCounts` | src/app/api/sessions/route.ts:29-36 | a new session with count 0 keeps the counts in agreement |
| `SessionsApi.NoMessagesOf` | src/app/api/sessions/route.ts:29-36 | a session that no message names has no messages |
| `SessionsApi.HandleCreate` | src/app/api/sessions/route.ts:6-58 | 400 or 404 write nothing and a request with both fields for a known user always succeeds; success appends one `in_progress` session in phase `goal` owned by the user, and one `session_start` log entry |
| `SessionsApi.SessionsOf` | src/app/api/sessions/route.ts:84-90 | exactly the user's sessions |
| `SessionsApi.Take` | src/app/api/sessions/route.ts:86 | `take` keeps a prefix of length min(n, size) |
| `SessionsApi.ListStatus` | src/app/api/sessions/route.ts:73-99 | 400 exactly for a missing username, 404 exactly for an unknown one |
| `SessionsApi.ListErrorText` | src/app/api/sessions/route.ts:73-99 | `用户名是必填项` for a missing username, `用户不存在` for an unknown one |
| `SessionsApi.ListSessions` | src/app/api/sessions/route.ts:70-103 | 400 without a username, 404 exactly for an unknown one, and the listing for every known one: its recent sessions with their reports |
| `SessionsApi.RecentIsNewestTen` | src/app/api/sessions/route.ts:84-90 | at most ten of the user's sessions, each taken from them, newest first, and none left out is newer than one shown |
| `SessionsApi.RecentFromTheirs` | src/app/api/sessions/route.ts:84-86 | the listing is a sub-multiset of the user's sessions: nothing invented, nothing repeated |
| `SessionsApi.RecentTheirs` | src/app/api/sessions/route.ts:84-86 | every listed session belongs to the user |
| `SessionsApi.RecentNewestFirst` | src/app/api/sessions/route.ts:85 | the listing is ordered by `startedAt` descending |
| `SessionsApi.RecentLeavesOutOlder` | src/app/api/sessions/route.ts:85-86 | no session of the user left out started later than a listed one |
| `CoachingChat.Shown` | src/app/api/coaching/chat/route.ts:57-61 | a field shows its value when truthy and `未设置` otherwise |
| `CoachingChat.TrimmedLines` | src/app/api/coaching/chat/route.ts:56-62 | trimming the template literal leaves its five lines, with only the last field end-trimmed |
| `CoachingChat.ProfileLayout` | src/app/api/coaching/chat/route.ts:56-62 | the profile is its five labelled lines in fixed order, joined by newlines |
| `CoachingChat.EmptyProfile` | src/app/api/coaching/chat/route.ts:56-62 | a user with no profile fields gets five `未设置` lines |
| `CoachingChat.ProfileSplitsIntoLines` | src/app/api/coaching/chat/route.ts:56-62 | when no field holds a newline, the profile splits into exactly its five lines |
| `CoachingChat.PhaseShown` | src/app/api/coaching/chat/route.ts:66 | the phase shown is the session's phase when truthy, and exactly `goal` when it is empty |
| `CoachingChat.ScenarioText` | src/app/api/coaching/chat/route.ts:69 | a known scenario appends its prompt; a key inherited from `Object.prototype` appends the text of that inherited value; any other appends `undefined` |
| `CoachingChat.InheritedScenarios` | src/app/api/coaching/chat/route.ts:69 | the scenarios `toString`, `__proto__` and `constructor` append function source text or `[object Object]`, not `undefined` |
| `CoachingChat.SystemPromptLayout` | src/app/api/coaching/chat/route.ts:65-69 | the system prompt is the template with the phase and the profile put in their placeholders, then two newlines and the scenario text |
| `CoachingChat.DollarQuoteProfile` | src/app/api/coaching/chat/route.ts:56-62 | a work challenge of `$'` ends the profile with `$'` |
| `CoachingChat.DollarQuoteAtEnd` | src/app/api/coaching/chat/route.ts:67 | a profile ending in `$'` is followed by a copy of the template's tail |
| `CoachingChat.DollarQuoteInProfile` | src/app/api/coaching/chat/route.ts:56-69 | a `$'` in a profile field is expanded by `replace`, not shown |
| `CoachingChat.Conversation` | src/app/api/coaching/chat/route.ts:72-91 | the message list is the system prompt, then the history in order, then the new message |
| `CoachingChat.BuildMessages` | src/app/api/coaching/chat/route.ts:72-91 | the `push` loop builds exactly that list |
| `CoachingChat.TurnRequest` | src/app/api/coaching/chat/route.ts:94-100 | a streamed `deepseek-chat` request with `max_tokens` 1024 and temperature 0.7 whose messages are exactly the conversation: the system prompt for the session's phase, the owner's profile and the scenario, then the history, then the new message |
| `CoachingChat.FrameIsOneEvent` | src/app/api/coaching/chat/route.ts:134 | an emitted frame is one `data: ` line followed by a blank line |
| `CoachingChat.LineDelta` | src/app/api/coaching/chat/route.ts:123-136 | a line yields a delta exactly when it starts with `data: `, is not `[DONE]`, parses and has truthy content |
| `CoachingChat.NonBlankKeeps` | src/app/api/coaching/chat/route.ts:120 | the filter keeps exactly the non-blank lines |
| `CoachingChat.LinesEventsAppend` | src/app/api/coaching/chat/route.ts:121-141 | the events of two runs of lines are the events of each, in order |
| `CoachingChat.SkippedLine` | src/app/api/coaching/chat/route.ts:125-140 | a `[DONE]`, unparseable or empty line is skipped and the loop goes on |
| `CoachingChat.BlankLinesCarryNothing` | src/app/api/coaching/chat/route.ts:120 | filtering blank lines changes no event |
| `CoachingChat.StreamEventsAppend` | src/app/api/coaching/chat/route.ts:115-143 | the events of two runs of chunks are the events of each, in order |
| `CoachingChat.LinesEventsAreText` | src/app/api/coaching/chat/route.ts:131-136 | the lines only ever emit text events |
| `CoachingChat.StreamEventsAreText` | src/app/api/coaching/chat/route.ts:131-136 | the chunks only ever emit text events |
| `CoachingChat.OneLineChunk` | src/app/api/coaching/chat/route.ts:119-120 | a chunk without a newline is one line |
| `CoachingChat.WholeLineDelivers` | src/app/api/coaching/chat/route.ts:123-136 | a whole `data:` line with content emits that content |
| `CoachingChat.LineCutAcrossChunks` | src/app/api/coaching/chat/route.ts:119-140 | a `data:` line cut across two chunks emits nothing |
| `CoachingChat.ReadLine` | src/app/api/coaching/chat/route.ts:122-140 | reading one line yields its delta |
| `CoachingChat.RelayLine` | src/app/api/coaching/chat/route.ts:122-140 | one line appends its events and its delta to the reply |
| `CoachingChat.RelayLines` | src/app/api/coaching/chat/route.ts:121-141 | the line loop emits the lines' events and keeps the reply equal to the concatenation of the emitted deltas |
| `CoachingChat.Relay` | src/app/api/coaching/chat/route.ts:107-143 | the reader loop emits exactly the stream's events; its reply is their concatenation; a missing body or failed read is reported |
| `CoachingChat.RelayOutcome` | src/app/api/coaching/chat/route.ts:145-166 | no body: no events and an error; a body read to its end sends exactly the stream's text events then `[DONE]`, and stores the concatenation of those text events; `[DONE]` is sent and a reply stored exactly then; a failed read sends exactly the stream's text events, then an error, and stores nothing |
| `CoachingChat.Settled` | src/app/api/coaching/chat/route.ts:145-166 | a read to the end sends exactly the text events then `[DONE]`, closes the stream and stores the concatenated text; a failed read sends exactly the text events and an error and stores nothing |
| `CoachingChat.ChatStatus` | src/app/api/coaching/chat/route.ts:14-37 | 400 exactly for missing parameters, 404 exactly for an unknown session, 500 otherwise |
| `CoachingChat.ChatErrorText` | src/app/api/coaching/chat/route.ts:14-183 | missing fields read `缺少必填参数`, an unknown session `会话不存在`, an upstream failure `对话失败: Deepseek API error: ` and the body; there is no text exactly for a NaN id and an unreadable error body |
| `CoachingChat.TargetSession` | src/app/api/coaching/chat/route.ts:12-37 | a session is targeted exactly when all fields are given, the id parses and names a stored session, and then it is that session |
| `CoachingChat.TurnOutcome` | src/app/api/coaching/chat/route.ts:94-166 | a failed gateway call is refused with its error and stores nothing; otherwise the reply streams the relay's events and stores its reply, which exists exactly when the stream closes cleanly |
| `CoachingChat.TurnMessages` | src/app/api/coaching/chat/route.ts:40-47 | a turn stores the user's message, then the reply when there is one, in the session's phase with consecutive ids |
| `CoachingChat.Record` | src/app/api/coaching/chat/route.ts:40-53 | one message is stored and its session's count rises by one, keeping the counts in agreement |
| `CoachingChat.PrepareRequest` | src/app/api/coaching/chat/route.ts:56-100 | the request is built from the profile, the prompt and the history |
| `CoachingChat.RelayResponse` | src/app/api/coaching/chat/route.ts:107-166 | the stream's outcome as `RelayOutcome` gives it |
| `CoachingChat.AnsweredTurn` | src/app/api/coaching/chat/route.ts:146-159 | an answered turn stores two messages and bumps the count by two |
| `CoachingChat.Converse` | src/app/api/coaching/chat/route.ts:40-166 | the user message is stored before the gateway call; the reply and the stored messages are the turn's |
| `CoachingChat.ChatOnSession` | src/app/api/coaching/chat/route.ts:22-166 | a turn on an existing session stores its messages and bumps its count accordingly |
| `CoachingChat.HandleChat` | src/app/api/coaching/chat/route.ts:9-184 | 400 and 404 write nothing; otherwise the turn's messages are stored and `messageCount` tracks them |
| `ReportGeneration.TranscriptLines` | src/app/api/reports/generate/route.ts:109-110 | one line per message |
| `ReportGeneration.TranscriptAppend` | src/app/api/reports/generate/route.ts:109-111 | an empty history renders as the empty string; each later message adds a blank line and its labelled line |
| `ReportGeneration.ReportPromptLayout` | src/app/api/reports/generate/route.ts:131 | the transcript fills the placeholder, literally when it holds no `$` |
| `ReportGeneration.ReportRequest` | src/app/api/reports/generate/route.ts:125-133 | a non-streamed `deepseek-chat` request with `max_tokens` 2048 and temperature 0.1 whose one message is the user's report prompt filled with the transcript of the history |
| `ReportGeneration.FirstOf` | src/app/api/reports/generate/route.ts:150 | the first `{`, or proof there is none |
| `ReportGeneration.LastOf` | src/app/api/reports/generate/route.ts:150 | the last `}`, or proof there is none |
| `ReportGeneration.JsonSpanIsRegexMatch` | src/app/api/reports/generate/route.ts:150 | the span is exactly the leftmost-greedy match of `/\{[\s\S]*\}/` |
| `ReportGeneration.SpanFound` | src/app/api/reports/generate/route.ts:150-152 | any `{` with a later `}` gives a match |
| `ReportGeneration.NoJsonSpan` | src/app/api/reports/generate/route.ts:150-155 | there is no match exactly when no `{` has a later `}` |
| `ReportGeneration.JsonCandidate` | src/app/api/reports/generate/route.ts:150-155 | the candidate is the leftmost-greedy match of `/\{[\s\S]*\}/`, and the whole content when no `{` has a later `}` |
| `ReportGeneration.TwoObjectsMakeOneCandidate` | src/app/api/reports/generate/route.ts:150 | two objects in one reply give one candidate spanning both |
| `ReportGeneration.ReplyContent` | src/app/api/reports/generate/route.ts:137 | content is only found under `choices` |
| `ReportGeneration.CompletionContent` | src/app/api/reports/generate/route.ts:137 | the content of a completion is `choices[0].message.content` |
| `ReportGeneration.ReadReport` | src/app/api/reports/generate/route.ts:136-160 | a null answer propagates the runtime's error; falsy content is an invalid response; truthy content that is not a string or whose candidate does not parse fails with `Failed to parse report data`; otherwise the parsed candidate |
| `ReportGeneration.ReportFields` | src/app/api/reports/generate/route.ts:167-176 | the report is written from `topic`, `insights`, `action_plans`; a falsy commitment becomes null |
| `ReportGeneration.Generation` | src/app/api/reports/generate/route.ts:125-160 | generation succeeds only on an ok response, and a failed call fails with its API error |
| `ReportGeneration.GenerationOnOk` | src/app/api/reports/generate/route.ts:134-160 | on an ok response: an unreadable body or non-JSON text propagates the runtime's error, a reply `ReadReport` rejects fails with its message, and otherwise the outcome is the report fields of the parsed data |
| `ReportGeneration.DurationMinutes` | src/app/api/reports/generate/route.ts:184-186 | `Math.round(elapsed / 60000)`: the nearest minute, halves rounded up |
| `ReportGeneration.DurationSeconds` | src/app/api/reports/generate/route.ts:196-198 | `Math.round(elapsed / 1000)`: the nearest second, halves rounded up |
| `ReportGeneration.DurationsAgree` | src/app/api/reports/generate/route.ts:179-199 | the logged seconds lie within 30 seconds of 60 times the stored minutes, either way |
| `ReportGeneration.GenerateStatus` | src/app/api/reports/generate/route.ts:71-94 | 400 exactly for a missing id, 404 exactly for an unknown session, 500 otherwise |
| `ReportGeneration.GenerateErrorText` | src/app/api/reports/generate/route.ts:71-219 | a missing id reads `会话 ID 是必填项`, an unknown session `会话不存在`, a failure with a message `生成报告失败: ` and the message; there is no text exactly for a failure without one |
| `ReportGeneration.ReportRow` | src/app/api/reports/generate/route.ts:167-176 | the row belongs to the session and its owner and carries the topic |
| `ReportGeneration.ViewShowsData` | src/app/api/reports/generate/route.ts:202-212 | the response shows the generated fields when parse reads back what stringify wrote |
| `ReportGeneration.GenerateTarget` | src/app/api/reports/generate/route.ts:69-94 | a session is targeted exactly when the id is given, parses and names a stored session, and then it is that session |
| `ReportGeneration.CheckGenerate` | src/app/api/reports/generate/route.ts:69-94 | a missing id is refused with 400, an id that parses to NaN with 500, an unknown session with 404; otherwise it returns exactly the session `GenerateTarget` names |
| `ReportGeneration.WithoutSessionReport` | src/app/api/reports/generate/route.ts:97-106 | deleting the existing report keeps exactly the other sessions' reports |
| `ReportGeneration.DropSessionReport` | src/app/api/reports/generate/route.ts:97-106 | the lookup and delete remove that session's report only |
| `ReportGeneration.SaveReport` | src/app/api/reports/generate/route.ts:167-200 | the report is appended, the session completed with its duration, and `report_generated` logged |
| `ReportGeneration.Regenerate` | src/app/api/reports/generate/route.ts:97-200 | the old report is deleted in any case; a failure writes nothing more; a success appends the row with the next id, completes that session only with its end and duration, and logs `report_generated` |
| `ReportGeneration.GenerateOnSession` | src/app/api/reports/generate/route.ts:97-212 | the writes `Regenerate` states, and afterwards the session has exactly the new report, or none when generation fails |
| `ReportGeneration.WritesGiveOutcome` | src/app/api/reports/generate/route.ts:97-176 | the writes `Regenerate` states leave the session with exactly the new report (shown as stored when serialising round-trips), or with none when generation fails |
| `ReportGeneration.HandleGenerate` | src/app/api/reports/generate/route.ts:66-220 | the refusals `CheckGenerate` states write nothing; otherwise every write `Regenerate` states, and the outcome `GenerateOnSession` states |

## Left out

- Network I/O: the `fetch` call with its URL, headers and API key. The gateway is a
  function from request to response.
- Byte streams: `ReadableStream`, `TextEncoder` and `TextDecoder` are not modelled.
  The response body is a sequence of text chunks, so UTF-8 characters split across
  chunks are not modelled.
- The internals of `JSON.parse` and `JSON.stringify`. They are function parameters;
  `ReportGeneration.RoundTrips` states the round trip where it is needed.
- The clock. Each handler reads one `now`, so `endedAt`, the durations and
  `createdAt` share it. `Date` objects are integer milliseconds, and `generatedAt`
  is that same `now`.
- Floating point. `Math.round` of a quotient is modelled in integers.
- JSON numbers are integers here (`JsValue.Json.Number`), so fractional or exponent-form
  numbers in parsed replies (a numeric stream delta such as `0.5`, appended as `"0.5"`)
  are not modelled.
- Logging: the `console.log` and `console.error` debug output.
- Concurrency: races between requests on the same session. Each handler is one
  sequential step.
- Store failures: Prisma errors other than the ones the model names. The 500
  answers `创建会话失败` and `获取会话列表失败`, which only a store failure reaches,
  are not modelled.
- Body fields of other JSON types: `username`, `scenario` and `message` are modelled
  as text that is given or missing, so a field sent as a number, boolean, array or
  object is not modelled; `sessionId` may be text or an integer.
- Fractional and very large numeric ids: a `sessionId` sent as a JSON number is an
  integer here, so `parseInt(1.5)` and the exponent form `String` gives numbers of
  magnitude 1e21 and above are not modelled.
- A session id that does not parse: `parseInt` gives NaN and the route's
  `findUnique` then fails, which the model answers with status 500
  (`InvalidSessionId` in the chat route, `Failed(None)` in report generation) rather
  than with the store's own error text.
- The text of an inherited `Object.prototype` value: `JsValue.InheritedText` follows
  the V8 engine's `Function.prototype.toString`; another engine may word it
  differently.
- Prompt wording: the coaching template, the scenario prompts and the report prompt
  keep their placeholders and structure but only part of their wording. Nothing in
  the routes depends on that wording.
- The safety prompt: `SAFETY_SYSTEM_PROMPT` is not used by the modelled routes.
- `SessionsApi.RecentIsNewestTen`: does not fix the order of sessions that started at
  the same moment, because the database leaves that order open.
- `SessionsApi.HandleCreate`: stores the `session_start` metadata as a record, not as
  its JSON text.
- `CoachingChat.HandleChat`: does not check `username` against the session's owner;
  the route only requires it to be present.
- `CoachingChat.ChatErrorText`: gives no text for failures whose message comes from
  the runtime or the store.
- `ReportGeneration.GenerateErrorText`: gives no text for failures whose message
  comes from the runtime or the store.
- `Deepseek.Chat`: models an unreadable error body as its own error, with no message.
