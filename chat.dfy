/** The coaching chat route (`POST /api/coaching/chat`): it checks the body, loads the
    session with its owner and history, stores the user's message, builds the system
    prompt from the owner's profile and the session's phase and scenario, sends the
    whole conversation to the gateway as a streaming request, and relays the deltas of
    the model's reply to the client as server-sent events while accumulating them;
    when the upstream stream ends cleanly the accumulated reply is stored too. */
module CoachingChat {
  import opened Base
  import opened JsString
  import opened JsValue
  import opened Deepseek
  import opened Store
  import opened Requests

  // ---------------------------------------------------------------------------
  // the user profile

  /** The text a profile field shows: its value, or "未设置" (not set) when it is
      missing or empty. */
  const NotSet: string := "未设置"

  function Shown(field: Option<string>): (r: string)
    ensures r != ""
    ensures TextGiven(field) ==> r == field.value
    ensures !TextGiven(field) ==> r == NotSet
  {
    if TextGiven(field) then field.value else NotSet
  }

  /** The field, when set, does not hold `c`. */
  predicate Lacks(field: Option<string>, c: char) {
    field.Some? ==> c !in field.value
  }

  const RoleLabel: string := "角色："
  const BusinessLineLabel: string := "业务线："
  const WorkStyleLabel: string := "工作风格："
  const DevelopmentGoalLabel: string := "发展目标："
  const WorkChallengeLabel: string := "工作挑战："

  /** The line a labelled profile field shows. */
  function FieldLine(heading: string, field: Option<string>): string {
    heading + Shown(field)
  }

  /** The first four lines of the profile template, one labelled line per field. */
  function HeadLines(u: User): seq<string> {
    [ FieldLine(RoleLabel, u.role),
      FieldLine(BusinessLineLabel, u.businessLine),
      FieldLine(WorkStyleLabel, u.workStyle),
      FieldLine(DevelopmentGoalLabel, u.developmentGoal) ]
  }

  /** The lines of the profile template: the four above and the work challenge. */
  function ProfileFields(u: User): seq<string> {
    HeadLines(u) + [WorkChallengeLabel + Shown(u.workChallenge)]
  }

  /** The profile block: the template (a line break, the five lines, a line break and
      an indentation) trimmed. */
  function ProfileText(u: User): string {
    Trim("\n" + Join(ProfileFields(u), "\n") + "\n    ")
  }

  /** The lines of the profile block once trimmed: only the end of the last value can
      have changed. */
  function ProfileLines(u: User): seq<string> {
    HeadLines(u) + [WorkChallengeLabel + TrimEnd(Shown(u.workChallenge))]
  }

  /** The profile block up to the last field's value. */
  function ProfileHead(u: User): string {
    Join(HeadLines(u), "\n") + "\n" + WorkChallengeLabel
  }

  /** A text that starts with `x` and ends with `y` has their first and last characters. */
  lemma Ends(x: string, mid: string, y: string)
    requires x != "" && y != ""
    ensures (x + mid + y)[0] == x[0] && (x + mid + y)[|x + mid + y| - 1] == y[|y| - 1]
  {
  }

  /** Lines framed by whitespace and trimmed: when the first starts and the last
      heading ends with characters that are not whitespace, only the end of the last
      value changes. */
  lemma TrimmedLines(first: seq<string>, heading: string, last: string)
    requires |first| >= 1 && first[0] != "" && !IsWhitespace(first[0][0])
    requires heading != "" && !IsWhitespace(heading[|heading| - 1])
    ensures Trim("\n" + Join(first + [heading + last], "\n") + "\n    ")
            == Join(first, "\n") + "\n" + heading + TrimEnd(last)
    ensures Trim("\n" + Join(first + [heading + last], "\n") + "\n    ")
            == Join(first + [heading + TrimEnd(last)], "\n")
  {
    var joined := Join(first, "\n");
    JoinStarts(first, "\n");
    var head := joined + "\n" + heading;
    Ends(joined, "\n", heading);
    JoinLastSplit(first, heading, last, "\n");
    JoinLastSplit(first, heading, TrimEnd(last), "\n");
    TrimFramed("\n", head + last, head, last, "\n    ");
  }

  /** The profile block is its five lines joined by line breaks: the leading line break
      and the trailing indentation of the template are gone, and every field value but
      the last appears verbatim. */
  lemma ProfileLayout(u: User)
    ensures ProfileText(u) == ProfileHead(u) + TrimEnd(Shown(u.workChallenge))
    ensures ProfileText(u) == Join(ProfileLines(u), "\n")
  {
    var first := HeadLines(u);
    assert first[0][0] == RoleLabel[0];
    TrimmedLines(first, WorkChallengeLabel, Shown(u.workChallenge));
  }

  /** A user who has filled in nothing gets every line marked as not set. */
  lemma EmptyProfile(u: User)
    requires !TextGiven(u.role) && !TextGiven(u.businessLine) && !TextGiven(u.workStyle)
    requires !TextGiven(u.developmentGoal) && !TextGiven(u.workChallenge)
    ensures ProfileLines(u) == [RoleLabel + NotSet, BusinessLineLabel + NotSet, WorkStyleLabel + NotSet,
                                DevelopmentGoalLabel + NotSet, WorkChallengeLabel + NotSet]
    ensures ProfileText(u) == Join(ProfileLines(u), "\n")
  {
    assert TrimEnd(NotSet) == NotSet by {
      assert !IsWhitespace(NotSet[|NotSet| - 1]);
    }
    ProfileLayout(u);
  }

  /** A field line lacks a character that neither its heading nor its value holds. */
  lemma FieldLineLacks(heading: string, field: Option<string>, c: char)
    requires c !in heading && c !in NotSet && Lacks(field, c)
    ensures c !in FieldLine(heading, field)
  {
  }

  /** The profile block up to the last value holds no dollar sign that none of the
      first four values holds. */
  lemma HeadLacks(u: User, c: char)
    requires c == '$'
    requires Lacks(u.role, c) && Lacks(u.businessLine, c) && Lacks(u.workStyle, c)
    requires Lacks(u.developmentGoal, c)
    ensures c !in ProfileHead(u)
  {
    FieldLineLacks(RoleLabel, u.role, c);
    FieldLineLacks(BusinessLineLabel, u.businessLine, c);
    FieldLineLacks(WorkStyleLabel, u.workStyle, c);
    FieldLineLacks(DevelopmentGoalLabel, u.developmentGoal, c);
    var first := HeadLines(u);
    assert forall i :: 0 <= i < |first| ==> c !in first[i];
    JoinAvoids(first, "\n", c);
  }

  /** Trimming a value keeps out a character it lacks. */
  lemma TrimmedLacks(field: Option<string>, c: char)
    requires c !in NotSet && Lacks(field, c)
    ensures c !in TrimEnd(Shown(field))
  {
    var v := Shown(field);
    assert TrimEnd(v) == v[..|TrimEnd(v)|];
  }

  /** Five lines joined by a separator none of them holds split back into those lines. */
  lemma SplitFive(text: string, a: string, b: string, c: string, d: string, e: string, sep: char)
    requires sep !in a && sep !in b && sep !in c && sep !in d && sep !in e
    requires text == Join([a, b, c, d, e], [sep])
    ensures Split(text, sep) == [a, b, c, d, e]
  {
    var lines := [a, b, c, d, e];
    assert forall i :: 0 <= i < |lines| ==> sep !in lines[i];
    SplitJoin(lines, sep);
  }

  /** No line of the profile block holds a line break when no field value does. */
  lemma LinesLackBreaks(u: User)
    requires Lacks(u.role, '\n') && Lacks(u.businessLine, '\n') && Lacks(u.workStyle, '\n')
    requires Lacks(u.developmentGoal, '\n') && Lacks(u.workChallenge, '\n')
    ensures '\n' !in FieldLine(RoleLabel, u.role) && '\n' !in FieldLine(BusinessLineLabel, u.businessLine)
    ensures '\n' !in FieldLine(WorkStyleLabel, u.workStyle)
    ensures '\n' !in FieldLine(DevelopmentGoalLabel, u.developmentGoal)
    ensures '\n' !in WorkChallengeLabel + TrimEnd(Shown(u.workChallenge))
  {
    FieldLineLacks(RoleLabel, u.role, '\n');
    FieldLineLacks(BusinessLineLabel, u.businessLine, '\n');
    FieldLineLacks(WorkStyleLabel, u.workStyle, '\n');
    FieldLineLacks(DevelopmentGoalLabel, u.developmentGoal, '\n');
    TrimmedLacks(u.workChallenge, '\n');
  }

  /** When no field value holds a line break, splitting the profile block at line
      breaks gives back exactly the five labelled lines. */
  lemma ProfileSplitsIntoLines(u: User)
    requires Lacks(u.role, '\n') && Lacks(u.businessLine, '\n') && Lacks(u.workStyle, '\n')
    requires Lacks(u.developmentGoal, '\n') && Lacks(u.workChallenge, '\n')
    ensures Split(ProfileText(u), '\n') == ProfileLines(u)
  {
    var a, b := FieldLine(RoleLabel, u.role), FieldLine(BusinessLineLabel, u.businessLine);
    var c, d := FieldLine(WorkStyleLabel, u.workStyle), FieldLine(DevelopmentGoalLabel, u.developmentGoal);
    var last := TrimEnd(Shown(u.workChallenge));
    LinesLackBreaks(u);
    ProfileLayout(u);
    assert ProfileLines(u) == [a, b, c, d, WorkChallengeLabel + last];
    SplitFive(ProfileText(u), a, b, c, d, WorkChallengeLabel + last, '\n');
  }

  // ---------------------------------------------------------------------------
  // the system prompt

  /** `session.currentPhase || 'goal'` */
  function PhaseShown(phase: string): (r: string)
    ensures r != ""
    ensures phase != "" ==> r == phase
    ensures phase == "" ==> r == PhaseName(Goal)
  {
    if phase == "" then PhaseName(Goal) else phase
  }

  /** `SCENARIO_PROMPTS[scenario]` as `+` turns it into text. The scenario is stored
      unchecked, and the prompts are an object literal, so a key with no entry of its
      own may still be one the literal inherits; any other key gives "undefined". */
  function ScenarioText(scenario: string): (r: string)
    ensures ParseScenario(scenario).Some? ==> r == ScenarioPrompt(scenario).value
    ensures Inherited(scenario) ==> r == InheritedText(scenario)
    ensures ParseScenario(scenario).None? && !Inherited(scenario) ==> r == "undefined"
  {
    match ScenarioPrompt(scenario)
    case Some(p) => p
    case None => if Inherited(scenario) then InheritedText(scenario) else "undefined"
  }

  /** A session started with the scenario "toString" is prompted with the source text
      of `Object.prototype.toString`, and one started with "__proto__" with
      "[object Object]". */
  lemma InheritedScenarios()
    ensures ScenarioText("toString") == "function " + "toString" + "() { [native code] }"
    ensures ScenarioText("__proto__") == "[object Object]"
    ensures ScenarioText("constructor") == "function " + "Object" + "() { [native code] }"
  {
    assert "toString" in PrototypeMethods && "constructor" in PrototypeMethods;
  }

  /** The system message: the template with its phase and profile placeholders
      replaced (each by a first-occurrence `replace`), then the scenario's prompt. */
  function SystemPrompt(phase: string, profile: string, scenario: string): string {
    Replace(Replace(CoachingSystemPrompt, CurrentPhasePlaceholder, PhaseShown(phase)),
            UserProfilePlaceholder, profile)
    + "\n\n" + ScenarioText(scenario)
  }

  /** The system prompt as laid out for the model: the template text with the phase
      and the profile in place of their placeholders, followed by the scenario prompt.
      This needs the phase to hold no `{` (so the profile placeholder is still the
      first one after the phase is in) and neither to hold `$` (which `replace` would
      read as a substitution pattern). */
  lemma SystemPromptLayout(phase: string, profile: string, scenario: string)
    requires '$' !in PhaseShown(phase) && '{' !in PhaseShown(phase) && '$' !in profile
    ensures SystemPrompt(phase, profile, scenario)
            == PromptHead + PhaseShown(phase) + PromptMiddle + profile + PromptTail
               + "\n\n" + ScenarioText(scenario)
  {
    var shown := PhaseShown(phase);
    var filled := Replace(Replace(CoachingSystemPrompt, CurrentPhasePlaceholder, shown), UserProfilePlaceholder, profile);
    assert filled == PromptHead + shown + PromptMiddle + profile + PromptTail by {
      LabelsPlain();
      ReplaceInTurn(PromptHead, CurrentPhasePlaceholder, PromptMiddle, UserProfilePlaceholder, PromptTail, shown, profile);
      SubstitutionLiteral(profile, UserProfilePlaceholder, PromptHead + shown + PromptMiddle, PromptTail);
    }
  }

  /** A profile whose last value is `$'` ends in those two characters, and has no
      other `$` when no other field holds one. */
  lemma DollarQuoteProfile(u: User)
    requires u.workChallenge == Some("$'")
    requires Lacks(u.role, '$') && Lacks(u.businessLine, '$') && Lacks(u.workStyle, '$')
    requires Lacks(u.developmentGoal, '$')
    ensures ProfileText(u) == ProfileHead(u) + "$'" && '$' !in ProfileHead(u)
  {
    assert TrimEnd("$'") == "$'" by {
      assert !IsWhitespace("$'"[1]);
    }
    HeadLacks(u, '$');
    ProfileLayout(u);
  }

  /** A profile ending in `$'` is not copied into the prompt: `replace` reads those two
      characters as "the text after the match" and puts the template's tail there. */
  lemma DollarQuoteAtEnd(a: string, phase: string, scenario: string)
    requires '$' !in a && '$' !in PhaseShown(phase) && '{' !in PhaseShown(phase)
    ensures SystemPrompt(phase, a + "$'", scenario)
            == PromptHead + PhaseShown(phase) + PromptMiddle + a + PromptTail + PromptTail
               + "\n\n" + ScenarioText(scenario)
  {
    LabelsPlain();
    ReplaceInTurnQuoteAfter(PromptHead, CurrentPhasePlaceholder, PromptMiddle, UserProfilePlaceholder, PromptTail,
                            PhaseShown(phase), a);
  }

  /** So a user whose work challenge reads `$'` (and who has no other `$` in the
      profile) gets a system prompt in which those two characters are replaced by the
      template's tail instead of appearing verbatim. */
  lemma DollarQuoteInProfile(u: User, phase: string, scenario: string)
    requires u.workChallenge == Some("$'")
    requires Lacks(u.role, '$') && Lacks(u.businessLine, '$') && Lacks(u.workStyle, '$')
    requires Lacks(u.developmentGoal, '$')
    requires '$' !in PhaseShown(phase) && '{' !in PhaseShown(phase)
    ensures SystemPrompt(phase, ProfileText(u), scenario)
            == PromptHead + PhaseShown(phase) + PromptMiddle + ProfileHead(u) + PromptTail + PromptTail
               + "\n\n" + ScenarioText(scenario)
    ensures ProfileText(u) == ProfileHead(u) + "$'"
  {
    DollarQuoteProfile(u);
    DollarQuoteAtEnd(ProfileHead(u), phase, scenario);
  }

  // ---------------------------------------------------------------------------
  // the conversation sent to the model

  /** The messages of one turn: the system prompt, the stored history in order, and
      the new user message last. */
  function Conversation(systemPrompt: string, history: seq<StoredMessage>, message: string): (r: seq<Message>)
    ensures |r| == |history| + 2
    ensures r[0] == Message(System, systemPrompt)
    ensures forall i :: 0 <= i < |history| ==> r[i + 1] == Message(history[i].role, history[i].content)
    ensures r[|r| - 1] == Message(Role.User, message)
  {
    [Message(System, systemPrompt)]
    + seq(|history|, i requires 0 <= i < |history| => Message(history[i].role, history[i].content))
    + [Message(Role.User, message)]
  }

  /** The loop of the route that builds the message list. */
  method BuildMessages(systemPrompt: string, history: seq<StoredMessage>, message: string)
    returns (messages: seq<Message>)
    ensures messages == Conversation(systemPrompt, history, message)
  {
    messages := [Message(System, systemPrompt)];
    for i := 0 to |history|
      invariant |messages| == i + 1
      invariant messages[0] == Message(System, systemPrompt)
      invariant forall k :: 0 <= k < i ==> messages[k + 1] == Message(history[k].role, history[k].content)
    {
      messages := messages + [Message(history[i].role, history[i].content)];
    }
    messages := messages + [Message(Role.User, message)];
    var expected := Conversation(systemPrompt, history, message);
    assert forall k :: 0 <= k < |messages| ==> messages[k] == expected[k] by {
      forall k | 0 <= k < |messages| ensures messages[k] == expected[k] {
        if 0 < k <= |history| {
          assert messages[(k - 1) + 1] == expected[(k - 1) + 1];
        }
      }
    }
  }

  /** The streaming request of one turn. */
  function TurnRequest(session: Session, owner: User, history: seq<StoredMessage>, message: string): (r: ChatRequest)
    ensures |r.messages| == |history| + 2
    ensures r.messages[0].role == System && r.messages[|r.messages| - 1] == Message(Role.User, message)
    ensures r.messages == Conversation(SystemPrompt(session.currentPhase, ProfileText(owner), session.scenario), history, message)
    ensures r.model == "deepseek-chat" && r.stream == Some(true)
    ensures r.maxTokens == Some(1024) && r.temperature == Some(0.7) && r.topP.None?
  {
    var systemPrompt := SystemPrompt(session.currentPhase, ProfileText(owner), session.scenario);
    ChatRequest("deepseek-chat", Conversation(systemPrompt, history, message), Some(true), Some(1024), Some(0.7), None)
  }

  // ---------------------------------------------------------------------------
  // relaying the upstream stream

  /** An event written to the client: a text delta, or the end marker. */
  datatype Event = TextEvent(text: Json) | DoneEvent

  const DataPrefix: string := "data: "
  const DoneMarker: string := "[DONE]"

  /** The bytes an event is written as: one `data:` line and an empty line. */
  function Frame(e: Event, stringify: Json -> string): string {
    match e
    case TextEvent(v) => DataPrefix + stringify(Object(map["text" := v])) + "\n\n"
    case DoneEvent => DataPrefix + DoneMarker + "\n\n"
  }

  /** A frame whose payload has no raw line break (JSON text never has one) reads, line
      by line, as a single `data:` line closed by an empty line, so a client sees
      exactly one event per frame. */
  lemma FrameIsOneEvent(e: Event, stringify: Json -> string)
    requires e.TextEvent? ==> '\n' !in stringify(Object(map["text" := e.text]))
    ensures var payload := if e.TextEvent? then stringify(Object(map["text" := e.text])) else DoneMarker;
            Split(Frame(e, stringify), '\n') == [DataPrefix + payload, "", ""]
  {
    var payload := if e.TextEvent? then stringify(Object(map["text" := e.text])) else DoneMarker;
    var line := DataPrefix + payload;
    assert '\n' !in DataPrefix && '\n' !in DoneMarker;
    assert '\n' !in line;
    var parts := [line, "", ""];
    assert parts[1..] == ["", ""] && parts[1..][1..] == [""];
    assert Join(parts[1..][1..], "\n") == "";
    assert Join(parts[1..], "\n") == "" + "\n" + "";
    assert Join(parts, "\n") == line + "\n" + ("" + "\n" + "");
    assert Frame(e, stringify) == Join(parts, "\n");
    SplitJoin(parts, '\n');
  }

  /** `parsed.choices?.[0]?.delta?.content`. When `parsed` is null, reading `choices`
      throws, which the line's own catch swallows: that also gives no content. */
  function DeltaContent(parsed: Json): Option<Json> {
    if parsed.Null? then None
    else OptProp(OptProp(OptProp(Prop(parsed, "choices"), "0"), "delta"), "content")
  }

  /** The text delta one line of the upstream stream carries: only a `data:` line other
      than the end marker, whose payload parses and holds a truthy delta content. */
  function LineDelta(line: string, parse: string -> Option<Json>): (r: Option<Json>)
    ensures r.Some? <==> (StartsWith(line, DataPrefix) && line[|DataPrefix|..] != DoneMarker
                          && parse(line[|DataPrefix|..]).Some?
                          && Truthy(DeltaContent(parse(line[|DataPrefix|..]).value)))
    ensures r.Some? ==> r == DeltaContent(parse(line[|DataPrefix|..]).value) && Truthy(r)
  {
    if !StartsWith(line, DataPrefix) then None
    else
      var data := line[|DataPrefix|..];
      if data == DoneMarker then None
      else
        match parse(data)
        case None => None
        case Some(parsed) =>
          var content := DeltaContent(parsed);
          if Truthy(content) then content else None
  }

  /** `lines.filter(line => line.trim() !== '')`: a line trims to the empty string
      exactly when it is all whitespace (`BlankIffAllWhitespace`). */
  function NonBlank(lines: seq<string>): seq<string>
    decreases |lines|
  {
    if |lines| == 0 then []
    else
      var last := lines[|lines| - 1];
      NonBlank(lines[..|lines| - 1]) + (if AllWhitespace(last) then [] else [last])
  }

  /** The filter keeps exactly the lines that are not blank, in their order. */
  lemma {:induction false} NonBlankKeeps(lines: seq<string>)
    ensures forall l :: l in NonBlank(lines) <==> l in lines && !IsBlank(l)
    decreases |lines|
  {
    if |lines| > 0 {
      var init, last := lines[..|lines| - 1], lines[|lines| - 1];
      var kept := if AllWhitespace(last) then [] else [last];
      NonBlankKeeps(init);
      assert NonBlank(lines) == NonBlank(init) + kept;
      assert lines == init + [last];
      forall l ensures l in NonBlank(lines) <==> l in lines && !IsBlank(l) {
        BlankIffAllWhitespace(l);
        assert l in lines <==> l in init || l == last;
        assert l in NonBlank(lines) <==> l in NonBlank(init) || l in kept;
      }
    }
  }

  /** The events one line produces: its delta, if it carries one. */
  function LineEvents(line: string, parse: string -> Option<Json>): seq<Event> {
    match LineDelta(line, parse)
    case Some(v) => [TextEvent(v)]
    case None => []
  }

  /** The events a run of lines produces, in order. */
  function LinesEvents(lines: seq<string>, parse: string -> Option<Json>): seq<Event>
    decreases |lines|
  {
    if |lines| == 0 then []
    else
      LinesEvents(lines[..|lines| - 1], parse) + LineEvents(lines[|lines| - 1], parse)
  }

  /** The events one decoded chunk produces: its non-blank lines, each on its own. */
  function ChunkEvents(chunk: string, parse: string -> Option<Json>): seq<Event> {
    LinesEvents(NonBlank(Split(chunk, '\n')), parse)
  }

  /** The events a sequence of chunks produces, chunk after chunk. */
  function StreamEvents(chunks: seq<string>, parse: string -> Option<Json>): seq<Event>
    decreases |chunks|
  {
    if |chunks| == 0 then []
    else StreamEvents(chunks[..|chunks| - 1], parse) + ChunkEvents(chunks[|chunks| - 1], parse)
  }

  /** What `fullResponse += content` appends for an event. */
  function EventText(e: Event): string {
    match e
    case TextEvent(v) => ToJsString(v)
    case DoneEvent => ""
  }

  /** The reply accumulated from a sequence of events. */
  function FullText(events: seq<Event>): string
    decreases |events|
  {
    if |events| == 0 then "" else FullText(events[..|events| - 1]) + EventText(events[|events| - 1])
  }

  /** Lines are handled one at a time: the events of two runs of lines are those of the
      first followed by those of the second. */
  lemma {:induction false} LinesEventsAppend(a: seq<string>, b: seq<string>, parse: string -> Option<Json>)
    ensures LinesEvents(a + b, parse) == LinesEvents(a, parse) + LinesEvents(b, parse)
    decreases |b|
  {
    if |b| > 0 {
      var init := b[..|b| - 1];
      var z := LineEvents(b[|b| - 1], parse);
      LinesEventsAppend(a, init, parse);
      assert LinesEvents(a + b, parse) == LinesEvents(a + init, parse) + z by {
        assert (a + b)[..|a + b| - 1] == a + init;
        assert (a + b)[|a + b| - 1] == b[|b| - 1];
      }
      assert LinesEvents(b, parse) == LinesEvents(init, parse) + z;
      var x, y := LinesEvents(a, parse), LinesEvents(init, parse);
      assert (x + y) + z == x + (y + z);
    } else {
      assert a + b == a;
    }
  }

  /** A line that carries no delta (not a `data:` line, the end marker, a payload that
      does not parse, or one without content) is skipped without stopping the loop. */
  lemma SkippedLine(before: seq<string>, line: string, after: seq<string>, parse: string -> Option<Json>)
    requires LineDelta(line, parse).None?
    ensures LinesEvents(before + [line] + after, parse) == LinesEvents(before, parse) + LinesEvents(after, parse)
  {
    LinesEventsAppend(before + [line], after, parse);
    assert LinesEvents(before + [line], parse) == LinesEvents(before, parse) by {
      assert (before + [line])[..|before|] == before;
      assert LineEvents(line, parse) == [];
    }
  }

  /** Dropping the blank lines first changes nothing: a blank line is never a `data:`
      line. */
  lemma {:induction false} BlankLinesCarryNothing(lines: seq<string>, parse: string -> Option<Json>)
    ensures LinesEvents(NonBlank(lines), parse) == LinesEvents(lines, parse)
    decreases |lines|
  {
    if |lines| > 0 {
      var init := lines[..|lines| - 1];
      var last := lines[|lines| - 1];
      BlankLinesCarryNothing(init, parse);
      if AllWhitespace(last) {
        assert !StartsWith(last, DataPrefix) by {
          if |last| >= |DataPrefix| {
            assert IsWhitespace(last[0]) && DataPrefix[0] == 'd';
          }
        }
        assert NonBlank(lines) == NonBlank(init) + [];
        assert NonBlank(lines) == NonBlank(init);
      } else {
        LinesEventsAppend(NonBlank(init), [last], parse);
        assert [last][..0] == [];
      }
    }
  }

  /** Chunks are handled one at a time. */
  lemma {:induction false} StreamEventsAppend(a: seq<string>, b: seq<string>, parse: string -> Option<Json>)
    ensures StreamEvents(a + b, parse) == StreamEvents(a, parse) + StreamEvents(b, parse)
    decreases |b|
  {
    if |b| > 0 {
      var init := b[..|b| - 1];
      var z := ChunkEvents(b[|b| - 1], parse);
      StreamEventsAppend(a, init, parse);
      assert StreamEvents(a + b, parse) == StreamEvents(a + init, parse) + z by {
        assert (a + b)[..|a + b| - 1] == a + init;
        assert (a + b)[|a + b| - 1] == b[|b| - 1];
      }
      assert StreamEvents(b, parse) == StreamEvents(init, parse) + z;
      var x, y := StreamEvents(a, parse), StreamEvents(init, parse);
      assert (x + y) + z == x + (y + z);
    } else {
      assert a + b == a;
    }
  }

  /** Every event of a run of lines is a text delta. */
  lemma {:induction false} LinesEventsAreText(lines: seq<string>, parse: string -> Option<Json>)
    ensures forall k :: 0 <= k < |LinesEvents(lines, parse)| ==> LinesEvents(lines, parse)[k].TextEvent?
    decreases |lines|
  {
    if |lines| > 0 {
      LinesEventsAreText(lines[..|lines| - 1], parse);
    }
  }

  /** Every event the chunks produce is a text delta. */
  lemma {:induction false} StreamEventsAreText(chunks: seq<string>, parse: string -> Option<Json>)
    ensures forall k :: 0 <= k < |StreamEvents(chunks, parse)| ==> StreamEvents(chunks, parse)[k].TextEvent?
    decreases |chunks|
  {
    if |chunks| > 0 {
      StreamEventsAreText(chunks[..|chunks| - 1], parse);
      LinesEventsAreText(NonBlank(Split(chunks[|chunks| - 1], '\n')), parse);
    }
  }

  /** A chunk without line breaks is a single line. */
  lemma OneLineChunk(line: string, parse: string -> Option<Json>)
    requires '\n' !in line
    ensures ChunkEvents(line, parse) == LineEvents(line, parse)
  {
    SplitWithoutSeparator(line, '\n');
    BlankLinesCarryNothing([line], parse);
    assert [line][..0] == [];
  }

  /** A `data:` line in a chunk of its own delivers its delta. */
  lemma WholeLineDelivers(payload: string, parse: string -> Option<Json>)
    requires '\n' !in payload && payload != DoneMarker
    requires parse(payload).Some? && Truthy(DeltaContent(parse(payload).value))
    ensures StreamEvents([DataPrefix + payload], parse) == [TextEvent(DeltaContent(parse(payload).value).value)]
  {
    var line := DataPrefix + payload;
    assert '\n' !in DataPrefix;
    assert line[..|DataPrefix|] == DataPrefix && line[|DataPrefix|..] == payload;
    OneLineChunk(line, parse);
    assert [line][..0] == [];
  }

  /** Lines are not reassembled across chunks: when a chunk boundary cuts a `data:` line
      in two, neither half delivers anything, although the whole line would (for a
      parser that rejects the first half of the payload). */
  lemma LineCutAcrossChunks(head: string, tail: string, parse: string -> Option<Json>)
    requires '\n' !in head && '\n' !in tail && !StartsWith(tail, DataPrefix)
    requires parse(head).None?
    ensures StreamEvents([DataPrefix + head, tail], parse) == []
  {
    var cut := DataPrefix + head;
    assert '\n' !in DataPrefix;
    assert cut[..|DataPrefix|] == DataPrefix && cut[|DataPrefix|..] == head;
    OneLineChunk(cut, parse);
    OneLineChunk(tail, parse);
    assert LineDelta(cut, parse).None? && LineDelta(tail, parse).None?;
    assert [cut, tail][..1] == [cut] && [cut][..0] == [];
    assert StreamEvents([cut], parse) == StreamEvents([], parse) + ChunkEvents(cut, parse) == [];
    assert StreamEvents([cut, tail], parse) == StreamEvents([cut], parse) + ChunkEvents(tail, parse);
  }

  /** Why the relay stopped with an error. */
  datatype StreamFailure = NoResponseBody | ReadFailed

  /** How the client's stream ends: closed after the end marker, or errored. */
  datatype StreamEnd = Closed | Errored(failure: StreamFailure)

  /** One line more: the events of the first `j + 1` lines, after earlier events. */
  lemma LinesEventsStep(events0: seq<Event>, lines: seq<string>, j: int, parse: string -> Option<Json>)
    requires 0 <= j < |lines|
    ensures events0 + LinesEvents(lines[..j + 1], parse)
            == (events0 + LinesEvents(lines[..j], parse)) + LineEvents(lines[j], parse)
  {
    assert lines[..j + 1][..j] == lines[..j];
    var done, z := LinesEvents(lines[..j], parse), LineEvents(lines[j], parse);
    assert (events0 + done) + z == events0 + (done + z);
  }

  /** One event more: the reply grows by its text. */
  lemma FullTextStep(events: seq<Event>, e: Event)
    ensures FullText(events + [e]) == FullText(events) + EventText(e)
  {
    assert (events + [e])[..|events|] == events;
  }

  /** The body of the line loop: the delta a line carries, or None to skip it. */
  method ReadLine(line: string, parse: string -> Option<Json>) returns (delta: Option<Json>)
    ensures delta == LineDelta(line, parse)
  {
    delta := None;
    if StartsWith(line, DataPrefix) {
      var data := line[|DataPrefix|..];
      if data != DoneMarker {
        match parse(data) {
          case Some(parsed) =>
            var content := DeltaContent(parsed);
            if Truthy(content) {
              delta := content;
            }
          case None =>
        }
      }
    }
  }

  /** The line loop over one chunk: every delta is appended to the reply and written
      to the client. */
  method RelayLines(lines: seq<string>, parse: string -> Option<Json>, events0: seq<Event>, reply0: string)
    returns (events: seq<Event>, reply: string)
    requires reply0 == FullText(events0)
    ensures events == events0 + LinesEvents(lines, parse)
    ensures reply == FullText(events)
  {
    events, reply := events0, reply0;
    for j := 0 to |lines|
      invariant events == events0 + LinesEvents(lines[..j], parse)
      invariant reply == FullText(events)
    {
      LinesEventsStep(events0, lines, j, parse);
      events, reply := RelayLine(lines[j], parse, events, reply);
    }
    assert lines[..|lines|] == lines;
  }

  /** The body of the line loop: a line that carries a delta sends it to the client and
      appends it to the accumulated reply; any other line is skipped. */
  method RelayLine(line: string, parse: string -> Option<Json>, events0: seq<Event>, reply0: string)
    returns (events: seq<Event>, reply: string)
    requires reply0 == FullText(events0)
    ensures events == events0 + LineEvents(line, parse)
    ensures reply == FullText(events)
  {
    events, reply := events0, reply0;
    var delta := ReadLine(line, parse);
    if delta.Some? {
      var e := TextEvent(delta.value);
      reply := reply + ToJsString(delta.value);
      events := events + [e];
      FullTextStep(events0, e);
    } else {
      assert events0 + [] == events0;
    }
  }

  /** The loop of the stream's `start`: read every chunk, split it into non-blank
      lines and relay them; the client's stream errors when there is no body or a read
      fails. */
  method Relay(body: Body, parse: string -> Option<Json>)
    returns (events: seq<Event>, reply: string, failure: Option<StreamFailure>)
    ensures body.NoBody? ==> events == [] && failure == Some(NoResponseBody)
    ensures body.Chunks? ==> events == StreamEvents(body.chunks, parse) && reply == FullText(events)
    ensures body.Chunks? ==> failure == (if body.readFails then Some(ReadFailed) else None)
  {
    events, reply := [], "";
    if body.NoBody? {
      failure := Some(NoResponseBody);
      return;
    }
    var chunks := body.chunks;
    var i := 0;
    while i < |chunks|
      invariant 0 <= i <= |chunks|
      invariant events == StreamEvents(chunks[..i], parse)
      invariant reply == FullText(events)
    {
      assert chunks[..i + 1][..i] == chunks[..i];
      var lines := NonBlank(Split(chunks[i], '\n'));
      events, reply := RelayLines(lines, parse, events, reply);
      i := i + 1;
    }
    assert chunks[..i] == chunks;
    failure := if body.readFails then Some(ReadFailed) else None;
  }

  /** What the client receives and what is stored, for an upstream response body. */
  datatype Relayed = Relayed(events: seq<Event>, end: StreamEnd, stored: Option<string>)

  /** The relay's outcome: without a body, or when a read fails, the client's stream
      errors and nothing more is stored; when the body ends cleanly the accumulated
      reply is stored and the end marker is written before the stream closes. */
  function RelayOutcome(body: Body, parse: string -> Option<Json>): (o: Relayed)
    ensures o.end == Closed <==> o.stored.Some?
    ensures o.end == Closed <==> |o.events| > 0 && o.events[|o.events| - 1] == DoneEvent
    ensures forall k :: 0 <= k < |o.events| - 1 ==> o.events[k].TextEvent?
    ensures o.stored.Some? ==> o.stored.value == FullText(o.events)
    ensures o.end != Closed ==> forall k :: 0 <= k < |o.events| ==> o.events[k].TextEvent?
    ensures o.end == Closed <==> body.Chunks? && !body.readFails
    ensures body.NoBody? ==> o == Relayed([], Errored(NoResponseBody), None)
    ensures body.Chunks? ==> var texts := StreamEvents(body.chunks, parse);
                             |texts| <= |o.events| && o.events[..|texts|] == texts
    ensures body.Chunks? && body.readFails ==> o.events == StreamEvents(body.chunks, parse) && o.end == Errored(ReadFailed)
    ensures body.Chunks? && !body.readFails ==> var texts := StreamEvents(body.chunks, parse);
                                                o.events == texts + [DoneEvent] && o.stored == Some(FullText(texts))
  {
    match body
    case NoBody => Relayed([], Errored(NoResponseBody), None)
    case Chunks(chunks, readFails) =>
      StreamEventsAreText(chunks, parse);
      Settled(StreamEvents(chunks, parse), readFails)
  }

  /** How a body that was read to its end or to a failed read settles: the text events
      relayed so far, then either the end marker and the stored reply, or an error. */
  function Settled(texts: seq<Event>, readFails: bool): (o: Relayed)
    requires forall k :: 0 <= k < |texts| ==> texts[k].TextEvent?
    ensures o.end == Closed <==> !readFails
    ensures o.end == Closed <==> o.stored.Some?
    ensures o.end == Closed <==> |o.events| > 0 && o.events[|o.events| - 1] == DoneEvent
    ensures forall k :: 0 <= k < |o.events| - 1 ==> o.events[k].TextEvent?
    ensures o.stored.Some? ==> o.stored.value == FullText(o.events)
    ensures o.end != Closed ==> o == Relayed(texts, Errored(ReadFailed), None)
    ensures !readFails ==> o == Relayed(texts + [DoneEvent], Closed, Some(FullText(texts)))
    ensures |texts| <= |o.events| && o.events[..|texts|] == texts
  {
    if readFails then
      Relayed(texts, Errored(ReadFailed), None)
    else
      var events := texts + [DoneEvent];
      assert FullText(events) == FullText(texts) by {
        FullTextStep(texts, DoneEvent);
      }
      assert forall k :: 0 <= k < |events| - 1 ==> events[k].TextEvent? by {
        assert forall k :: 0 <= k < |texts| ==> events[k] == texts[k];
      }
      assert events[..|texts|] == texts;
      assert |events| > 0 && events[|events| - 1] == DoneEvent;
      Relayed(events, Closed, Some(FullText(texts)))
  }

  // ---------------------------------------------------------------------------
  // the handler

  /** The JSON body of a chat request. */
  datatype ChatBody = ChatBody(sessionId: IdField, message: Option<string>, username: Option<string>)

  /** `sessionId`, `message` and `username` are all truthy. */
  predicate ChatFieldsGiven(body: ChatBody) {
    IdGiven(body.sessionId) && TextGiven(body.message) && TextGiven(body.username)
  }

  /** Why a chat request was answered with an error instead of a stream. */
  datatype ChatFailure =
    | MissingParameters           // 400
    | InvalidSessionId            // `parseInt` gave NaN, which the store rejects: 500
    | SessionNotFound             // 404
    | Upstream(error: GatewayError)  // the gateway call failed: 500

  /** The reply: an error response, or the event stream and how it ends. */
  datatype ChatReply = Refused(failure: ChatFailure) | Streaming(events: seq<Event>, end: StreamEnd)

  /** The status of an error response. */
  function ChatStatus(f: ChatFailure): (status: int)
    ensures status in {400, 404, 500}
    ensures status == 400 <==> f == MissingParameters
    ensures status == 404 <==> f == SessionNotFound
  {
    match f
    case MissingParameters => 400
    case SessionNotFound => 404
    case InvalidSessionId => 500
    case Upstream(_) => 500
  }

  /** The `error` text of an error response; None where it ends in a message of the
      runtime or the store that this model does not fix. */
  function ChatErrorText(f: ChatFailure): (text: Option<string>)
    ensures f.MissingParameters? ==> text == Some("缺少必填参数")
    ensures f.SessionNotFound? ==> text == Some("会话不存在")
    ensures f.Upstream? && f.error.ApiError? ==> text == Some("对话失败: " + (ApiErrorPrefix + f.error.detail))
    ensures text.None? <==> f.InvalidSessionId? || (f.Upstream? && f.error.BodyUnreadable?)
  {
    match f
    case MissingParameters => Some("缺少必填参数")
    case SessionNotFound => Some("会话不存在")
    case InvalidSessionId => None
    case Upstream(e) =>
      match GatewayErrorMessage(e)
      case Some(m) => Some("对话失败: " + m)
      case None => None
  }

  /** The session a chat body names, if the body is complete and the session exists. */
  function TargetSession(db: Db, body: ChatBody): (r: Option<Session>)
    reads db
    ensures r.Some? ==> ChatFieldsGiven(body) && IdValue(body.sessionId).Some?
    ensures ChatFieldsGiven(body) && IdValue(body.sessionId).Some? ==> r == db.FindSession(IdValue(body.sessionId).value)
  {
    var id := IdValue(body.sessionId);
    if !ChatFieldsGiven(body) || id.None? then None else db.FindSession(id.value)
  }

  /** What a turn on an existing session answers, and the assistant reply it stores. */
  datatype Turn = Turn(reply: ChatReply, stored: Option<string>)

  /** The turn for a request: a failed gateway call is answered with an error and
      stores nothing more; otherwise the relay decides. */
  function TurnOutcome(fetch: ChatRequest -> HttpResponse, parse: string -> Option<Json>, request: ChatRequest): (t: Turn)
    ensures t.stored.Some? <==> t.reply.Streaming? && t.reply.end == Closed
    ensures ChatStream(fetch, request).Err? ==> t == Turn(Refused(Upstream(ChatStream(fetch, request).error)), None)
    ensures ChatStream(fetch, request).Ok? ==>
              var o := RelayOutcome(ChatStream(fetch, request).value.body, parse);
              t.reply == Streaming(o.events, o.end) && t.stored == o.stored
  {
    match ChatStream(fetch, request)
    case Err(e) => Turn(Refused(Upstream(e)), None)
    case Ok(response) =>
      var o := RelayOutcome(response.body, parse);
      Turn(Streaming(o.events, o.end), o.stored)
  }

  /** The messages a turn stores: the user's message, then the reply if there is one. */
  function TurnMessages(firstId: int, s: Session, message: string, stored: Option<string>, now: int): (r: seq<StoredMessage>)
    ensures 1 <= |r| <= 2 && r[0].role == Role.User && r[0].content == message
    ensures |r| == 2 <==> stored.Some?
    ensures |r| == 2 ==> r[1].role == Assistant && r[1].content == stored.value
    ensures forall k :: 0 <= k < |r| ==> r[k].sessionId == s.id && r[k].id == firstId + k && r[k].phase == s.currentPhase
  {
    var asked := StoredMessage(firstId, s.id, Role.User, message, s.currentPhase, now);
    match stored
    case None => [asked]
    case Some(reply) => [asked, StoredMessage(firstId + 1, s.id, Assistant, reply, s.currentPhase, now)]
  }

  /** One message of a turn as the route writes it: `message.create` followed by the
      `messageCount` increment of its session. */
  method Record(db: Db, s: Session, role: Role, content: string, now: int) returns (m: StoredMessage)
    requires db.Valid() && 1 <= s.id <= |db.sessions| && role != System
    modifies db
    ensures db.Valid()
    ensures m == StoredMessage(|old(db.messages)| + 1, s.id, role, content, s.currentPhase, now)
    ensures db.messages == old(db.messages) + [m]
    ensures db.sessions == Bump(old(db.sessions), s.id, 1) && |db.sessions| == |old(db.sessions)|
    ensures db.users == old(db.users) && db.reports == old(db.reports)
    ensures db.analytics == old(db.analytics) && db.nextReportId == old(db.nextReportId)
    ensures old(db.CountsAgree()) ==> db.CountsAgree()
  {
    ghost var counted := db.CountsAgree();
    ghost var messages0, sessions0 := db.messages, db.sessions;
    m := db.CreateMessage(s.id, role, content, s.currentPhase, now);
    db.IncrementMessageCount(s.id);
    if counted {
      RecordingKeepsCounts(sessions0, messages0, m);
    }
  }

  /** The request of a turn as the route assembles it: the system prompt from the
      session's phase, the owner's profile and the scenario, then the history and the
      new message, sent as a streaming request with the route's fixed parameters. */
  method PrepareRequest(session: Session, owner: User, history: seq<StoredMessage>, message: string)
    returns (request: ChatRequest)
    ensures request == TurnRequest(session, owner, history, message)
  {
    var systemPrompt := SystemPrompt(session.currentPhase, ProfileText(owner), session.scenario);
    var messages := BuildMessages(systemPrompt, history, message);
    request := ChatRequest("deepseek-chat", messages, Some(true), Some(1024), Some(0.7), None);
  }

  /** The relay of an ok response: the events written, how the stream ends and the
      reply to store, as `RelayOutcome` states them. */
  method RelayResponse(body: Body, parse: string -> Option<Json>) returns (o: Relayed)
    ensures o == RelayOutcome(body, parse)
  {
    var events, fullResponse, failure := Relay(body, parse);
    if failure.Some? {
      o := Relayed(events, Errored(failure.value), None);
    } else {
      o := Relayed(events + [DoneEvent], Closed, Some(fullResponse));
    }
  }

  /** The tables after both messages of an answered turn are recorded one at a time. */
  lemma AnsweredTurn(messages: seq<StoredMessage>, sessions: seq<Session>, s: Session,
                     message: string, text: string, now: int)
    requires 1 <= s.id <= |sessions|
    ensures var added := TurnMessages(|messages| + 1, s, message, Some(text), now);
            && messages + [StoredMessage(|messages| + 1, s.id, Role.User, message, s.currentPhase, now)]
                + [StoredMessage(|messages| + 2, s.id, Assistant, text, s.currentPhase, now)] == messages + added
            && Bump(Bump(sessions, s.id, 1), s.id, 1) == Bump(sessions, s.id, |added|)
  {
    BumpTwice(sessions, s.id);
  }

  /** The turn on an existing session once its request is built: the user's message
      is stored and counted before the gateway is called, and the assistant's reply only
      when the upstream stream ends cleanly. */
  method Converse(db: Db, session: Session, message: string, request: ChatRequest,
                  fetch: ChatRequest -> HttpResponse, parse: string -> Option<Json>, now: int)
    returns (reply: ChatReply)
    requires db.Valid() && 1 <= session.id <= |db.sessions|
    modifies db
    ensures db.Valid()
    ensures db.users == old(db.users) && db.reports == old(db.reports)
    ensures db.analytics == old(db.analytics) && db.nextReportId == old(db.nextReportId)
    ensures old(db.CountsAgree()) ==> db.CountsAgree()
    ensures var t := TurnOutcome(fetch, parse, request);
            var added := TurnMessages(|old(db.messages)| + 1, session, message, t.stored, now);
            && reply == t.reply
            && db.messages == old(db.messages) + added
            && db.sessions == Bump(old(db.sessions), session.id, |added|)
  {
    ghost var messages0, sessions0 := db.messages, db.sessions;
    var asked := Record(db, session, Role.User, message, now);
    var response := ChatStream(fetch, request);
    if response.Err? {
      assert TurnOutcome(fetch, parse, request) == Turn(Refused(Upstream(response.error)), None);
      return Refused(Upstream(response.error));
    }
    var o := RelayResponse(response.value.body, parse);
    assert TurnOutcome(fetch, parse, request) == Turn(Streaming(o.events, o.end), o.stored);
    if o.stored.None? {
      return Streaming(o.events, o.end);
    }
    var text := o.stored.value;
    var answered := Record(db, session, Assistant, text, now);
    AnsweredTurn(messages0, sessions0, session, message, text, now);
    reply := Streaming(o.events, o.end);
  }

  /** The turn on a session that exists: the request is built from the session, its
      owner and its history as they were before the turn, then the turn is taken. */
  method ChatOnSession(db: Db, session: Session, message: string, fetch: ChatRequest -> HttpResponse,
                       parse: string -> Option<Json>, now: int)
    returns (reply: ChatReply)
    requires db.Valid() && 1 <= session.id <= |db.sessions|
    modifies db
    ensures db.Valid()
    ensures db.users == old(db.users) && db.reports == old(db.reports)
    ensures db.analytics == old(db.analytics) && db.nextReportId == old(db.nextReportId)
    ensures old(db.CountsAgree()) ==> db.CountsAgree()
    ensures var t := TurnOutcome(fetch, parse, TurnRequest(session, old(db.Owner(session.id)),
                                                            old(db.SessionMessages(session.id)), message));
            var added := TurnMessages(|old(db.messages)| + 1, session, message, t.stored, now);
            && reply == t.reply
            && db.messages == old(db.messages) + added
            && db.sessions == Bump(old(db.sessions), session.id, |added|)
  {
    var owner := db.Owner(session.id);
    var history := db.SessionMessages(session.id);
    var request := PrepareRequest(session, owner, history, message);
    ghost var t := TurnOutcome(fetch, parse, request);
    ghost var added := TurnMessages(|db.messages| + 1, session, message, t.stored, now);
    reply := Converse(db, session, message, request, fetch, parse, now);
    assert db.messages == old(db.messages) + added;
    assert db.sessions == Bump(old(db.sessions), session.id, |added|);
  }

  /** `POST /api/coaching/chat`. Nothing is written unless the body is complete and the
      session exists; then the turn is taken as `Converse` states. Message counts stay
      equal to the stored messages. */
  method HandleChat(db: Db, body: ChatBody, fetch: ChatRequest -> HttpResponse,
                    parse: string -> Option<Json>, now: int)
    returns (reply: ChatReply)
    requires db.Valid()
    modifies db
    ensures db.Valid()
    ensures db.users == old(db.users) && db.reports == old(db.reports)
    ensures db.analytics == old(db.analytics) && db.nextReportId == old(db.nextReportId)
    ensures old(db.CountsAgree()) ==> db.CountsAgree()
    ensures !ChatFieldsGiven(body) ==> reply == Refused(MissingParameters)
    ensures ChatFieldsGiven(body) && IdValue(body.sessionId).None? ==> reply == Refused(InvalidSessionId)
    ensures ChatFieldsGiven(body) && IdValue(body.sessionId).Some? && old(db.FindSession(IdValue(body.sessionId).value)).None?
            ==> reply == Refused(SessionNotFound)
    ensures old(TargetSession(db, body)).None? ==> db.sessions == old(db.sessions) && db.messages == old(db.messages)
    ensures old(TargetSession(db, body)).Some? ==>
      var s := old(TargetSession(db, body)).value;
      var t := TurnOutcome(fetch, parse, TurnRequest(s, old(db.Owner(s.id)), old(db.SessionMessages(s.id)), body.message.value));
      var added := TurnMessages(|old(db.messages)| + 1, s, body.message.value, t.stored, now);
      && reply == t.reply
      && db.messages == old(db.messages) + added
      && db.sessions == Bump(old(db.sessions), s.id, |added|)
  {
    if !ChatFieldsGiven(body) {
      assert TargetSession(db, body).None?;
      return Refused(MissingParameters);
    }
    var id := IdValue(body.sessionId);
    if id.None? {
      assert TargetSession(db, body).None?;
      return Refused(InvalidSessionId);
    }
    var found := db.FindSession(id.value);
    if found.None? {
      assert TargetSession(db, body).None?;
      return Refused(SessionNotFound);
    }
    assert TargetSession(db, body) == found;
    reply := ChatOnSession(db, found.value, body.message.value, fetch, parse, now);
  }
}
