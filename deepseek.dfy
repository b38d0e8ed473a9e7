/** The Deepseek gateway (`src/lib/deepseek.ts`): the request and message shapes, the
    error contract of `chat`, `chatStream` forcing streaming on, the two enumerations of
    the coaching domain and the prompt template whose placeholders the chat route fills.
    The HTTP call itself is a parameter `fetch` from the request to the response. */
module Deepseek {
  import opened Base
  import opened JsString

  // ---------------------------------------------------------------------------
  // request and response shapes

  /** DeepseekMessage.role */
  datatype Role = System | User | Assistant

  function RoleName(r: Role): string {
    match r
    case System => "system"
    case User => "user"
    case Assistant => "assistant"
  }

  /** DeepseekMessage */
  datatype Message = Message(role: Role, content: string)

  /** DeepseekChatRequest; an optional field that is absent is None. */
  datatype ChatRequest = ChatRequest(
    model: string,
    messages: seq<Message>,
    stream: Option<bool>,
    maxTokens: Option<int>,
    temperature: Option<real>,
    topP: Option<real>)

  /** The body of an HTTP response as it is read: absent, or a sequence of decoded text
      chunks after which the next read either reports the end or fails. */
  datatype Body = NoBody | Chunks(chunks: seq<string>, readFails: bool)

  /** What `fetch` resolves to: whether the status is 2xx, and the body. */
  datatype HttpResponse = HttpResponse(ok: bool, body: Body)

  /** The concatenation of a sequence of chunks. */
  function Concat(chunks: seq<string>): string
    decreases |chunks|
  {
    if |chunks| == 0 then "" else Concat(chunks[..|chunks| - 1]) + chunks[|chunks| - 1]
  }

  /** `response.text()`: the whole body, or None when reading it fails. */
  function BodyText(b: Body): Option<string> {
    match b
    case NoBody => Some("")
    case Chunks(chunks, readFails) => if readFails then None else Some(Concat(chunks))
  }

  /** Why a call to the gateway failed. */
  datatype GatewayError =
    | ApiError(detail: string)  // a non-ok status; the detail is the response text
    | BodyUnreadable            // a non-ok status whose text could not be read

  const ApiErrorPrefix: string := "Deepseek API error: "

  /** The message of the Error that a failed call throws; None when the runtime's own
      read error propagates instead. */
  function GatewayErrorMessage(e: GatewayError): Option<string> {
    match e
    case ApiError(detail) => Some(ApiErrorPrefix + detail)
    case BodyUnreadable => None
  }

  // ---------------------------------------------------------------------------
  // DeepseekClient

  /** `DeepseekClient.chat`: an ok response is returned as it is; any other response
      fails with an error carrying the response text. */
  function Chat(fetch: ChatRequest -> HttpResponse, request: ChatRequest): (r: Result<HttpResponse, GatewayError>)
    ensures r.Ok? <==> fetch(request).ok
    ensures r.Ok? ==> r.value == fetch(request)
    ensures r.Err? && BodyText(fetch(request).body).Some? ==> r.error == ApiError(BodyText(fetch(request).body).value)
    ensures r.Err? && BodyText(fetch(request).body).None? ==> r.error == BodyUnreadable
  {
    var response := fetch(request);
    if response.ok then Ok(response)
    else
      match BodyText(response.body)
      case Some(text) => Err(ApiError(text))
      case None => Err(BodyUnreadable)
  }

  /** The request `chatStream` hands to `chat`: `{ ...request, stream: true }`. */
  function StreamingRequest(request: ChatRequest): (r: ChatRequest)
    ensures r.stream == Some(true)
    ensures r.model == request.model && r.messages == request.messages
    ensures r.maxTokens == request.maxTokens && r.temperature == request.temperature
    ensures r.topP == request.topP
  {
    request.(stream := Some(true))
  }

  /** `DeepseekClient.chatStream` */
  function ChatStream(fetch: ChatRequest -> HttpResponse, request: ChatRequest): (r: Result<HttpResponse, GatewayError>)
    ensures r.Ok? <==> fetch(request.(stream := Some(true))).ok
    ensures r.Ok? ==> r.value == fetch(request.(stream := Some(true)))
    ensures r.Err? ==> var text := BodyText(fetch(request.(stream := Some(true))).body);
                       r.error == if text.Some? then ApiError(text.value) else BodyUnreadable
  {
    Chat(fetch, StreamingRequest(request))
  }

  /** The error message of a failed call is the fixed prefix followed by exactly the
      response text, so the text can be read back from the message. */
  lemma ApiErrorMessageCarriesBody(fetch: ChatRequest -> HttpResponse, request: ChatRequest)
    requires !fetch(request).ok && BodyText(fetch(request).body).Some?
    ensures var m := GatewayErrorMessage(Chat(fetch, request).error);
            && m.Some? && StartsWith(m.value, ApiErrorPrefix)
            && m.value[|ApiErrorPrefix|..] == BodyText(fetch(request).body).value
  {
    var m := ApiErrorPrefix + BodyText(fetch(request).body).value;
    assert m[..|ApiErrorPrefix|] == ApiErrorPrefix;
    assert m[|ApiErrorPrefix|..] == BodyText(fetch(request).body).value;
  }

  /** A request that already streams is sent by `chatStream` exactly as given, and
      forcing streaming twice is the same as once. */
  lemma StreamingRequestIdempotent(request: ChatRequest)
    ensures StreamingRequest(StreamingRequest(request)) == StreamingRequest(request)
    ensures request.stream == Some(true) ==> StreamingRequest(request) == request
  {
  }

  // ---------------------------------------------------------------------------
  // the enumerations

  /** CoachingPhase: the four stages of the GROW model. */
  datatype CoachingPhase = Goal | Reality | Options | Will

  function PhaseName(p: CoachingPhase): string {
    match p
    case Goal => "goal"
    case Reality => "reality"
    case Options => "options"
    case Will => "will"
  }

  /** The phase a stored string names, if any. */
  function ParsePhase(s: string): (r: Option<CoachingPhase>)
    ensures r.Some? ==> PhaseName(r.value) == s
    ensures r.None? ==> forall p :: PhaseName(p) != s
  {
    if s == "goal" then Some(Goal)
    else if s == "reality" then Some(Reality)
    else if s == "options" then Some(Options)
    else if s == "will" then Some(Will)
    else None
  }

  /** Every phase name reads back as its phase, and the names are exactly four. */
  lemma PhaseNames(p: CoachingPhase, s: string)
    ensures ParsePhase(PhaseName(p)) == Some(p)
    ensures ParsePhase(s).Some? <==> s in {"goal", "reality", "options", "will"}
  {
  }

  /** Scenario: the coaching context chosen when a session starts. */
  datatype Scenario = WorkProblem | CareerDevelopment

  function ScenarioName(sc: Scenario): string {
    match sc
    case WorkProblem => "work_problem"
    case CareerDevelopment => "career_development"
  }

  function ParseScenario(s: string): (r: Option<Scenario>)
    ensures r.Some? ==> ScenarioName(r.value) == s
    ensures r.None? ==> forall sc :: ScenarioName(sc) != s
  {
    if s == "work_problem" then Some(WorkProblem)
    else if s == "career_development" then Some(CareerDevelopment)
    else None
  }

  lemma ScenarioNames(sc: Scenario, s: string)
    ensures ParseScenario(ScenarioName(sc)) == Some(sc)
    ensures ParseScenario(s).Some? <==> s in {"work_problem", "career_development"}
  {
  }

  // ---------------------------------------------------------------------------
  // prompt constants (their instruction wording is shortened in this model)

  const CurrentPhasePlaceholder: string := "{current_phase}"
  const UserProfilePlaceholder: string := "{user_profile}"

  /** The instruction text that opens COACHING_SYSTEM_PROMPT, shortened to its first
      sentence: the model only relies on it having no brace. */
  const CoachingInstructions: string := "\n你是一位经过 ICF（国际教练联盟）认证的专业教练。\n"
  const PhaseLabel: string := "当前对话阶段："
  const ProfileLabel: string := "\n用户画像："

  /** The text before the phase placeholder, and between the two placeholders. */
  const PromptHead: string := CoachingInstructions + PhaseLabel
  const PromptMiddle: string := ProfileLabel
  const PromptTail: string := "\n"

  /** COACHING_SYSTEM_PROMPT */
  const CoachingSystemPrompt: string :=
    PromptHead + CurrentPhasePlaceholder + PromptMiddle + UserProfilePlaceholder + PromptTail

  /** SCENARIO_PROMPTS values, shortened to their opening line. */
  const WorkProblemPrompt: string := "\n用户选择了\"工作难题\"场景。这表示他们在工作中遇到了具体挑战。\n"
  const CareerDevelopmentPrompt: string := "\n用户选择了\"职业发展\"场景。这表示他们在思考职业规划或成长路径。\n"

  /** `SCENARIO_PROMPTS[key]`: an entry for each scenario name and for nothing else. */
  function ScenarioPrompt(key: string): (r: Option<string>)
    ensures r.Some? <==> ParseScenario(key).Some?
  {
    match ParseScenario(key)
    case Some(WorkProblem) => Some(WorkProblemPrompt)
    case Some(CareerDevelopment) => Some(CareerDevelopmentPrompt)
    case None => None
  }

  /** The text around the placeholders holds no brace and no `$`. */
  lemma LabelsPlain()
    ensures '{' !in PromptHead && '{' !in PromptMiddle
    ensures '$' !in PromptHead && '$' !in PromptMiddle && '$' !in PromptTail
  {
    assert '{' !in CoachingInstructions && '$' !in CoachingInstructions;
    assert '{' !in PhaseLabel && '$' !in PhaseLabel;
    assert PromptHead == CoachingInstructions + PhaseLabel;
  }

  /** Where each placeholder starts in the template. */
  const PhaseAt: nat := |PromptHead|
  const ProfileAt: nat := |PromptHead| + |CurrentPhasePlaceholder| + |PromptMiddle|

  /** The only braces of the template open its two placeholders. */
  lemma TemplateBraces(j: nat)
    requires j < |CoachingSystemPrompt| && CoachingSystemPrompt[j] == '{'
    ensures j == PhaseAt || j == ProfileAt
  {
  }

  /** COACHING_SYSTEM_PROMPT holds each placeholder exactly once, the phase first, so a
      single first-occurrence replace fills each of them. */
  lemma TemplatePlaceholdersOnce(j: nat)
    ensures OccursAt(CoachingSystemPrompt, CurrentPhasePlaceholder, j) <==> j == PhaseAt
    ensures OccursAt(CoachingSystemPrompt, UserProfilePlaceholder, j) <==> j == ProfileAt
    ensures PhaseAt < ProfileAt
  {
    var t := CoachingSystemPrompt;
    assert t[PhaseAt..PhaseAt + |CurrentPhasePlaceholder|] == CurrentPhasePlaceholder;
    assert t[ProfileAt..ProfileAt + |UserProfilePlaceholder|] == UserProfilePlaceholder;
    assert t[PhaseAt + 1] == 'c' && t[ProfileAt + 1] == 'u';
    if OccursAt(t, CurrentPhasePlaceholder, j) {
      assert t[j] == t[j..j + |CurrentPhasePlaceholder|][0] == '{';
      TemplateBraces(j);
    }
    if OccursAt(t, UserProfilePlaceholder, j) {
      assert t[j] == t[j..j + |UserProfilePlaceholder|][0] == '{';
      TemplateBraces(j);
    }
  }
}
