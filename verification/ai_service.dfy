/** The AI reply service: a provider list fixed at construction, a request per provider, the
    extraction of the completion text from an OpenAI-compatible `chat/completions` body, and a loop
    that tries every provider once, in order, and falls back to a canned reply. The network is not
    modelled: what each provider's HTTP call produced is an input. */
module AiService {
  import opened Wrappers
  import opened JsStrings
  import opened JsValues

  /** A configured chat-completion endpoint. */
  datatype Provider = Provider(name: string, apiKey: string, baseUrl: string, model: string)

  const DeepSeekName: string := "deepseek"
  const DeepSeekBaseUrl: string := "https://api.deepseek.com"
  const DeepSeekModel: string := "deepseek-chat"
  const MaxTokens: nat := 500

  /** The one provider the constructor can register, for a given key. */
  function DeepSeek(apiKey: string): Provider {
    Provider(DeepSeekName, apiKey, DeepSeekBaseUrl, DeepSeekModel)
  }

  // ----- the request -------------------------------------------------------------------------

  /** One entry of the `messages` array of a chat-completion request. */
  datatype ChatTurn = ChatTurn(role: string, content: string)

  /** The POST a provider call sends (the `temperature` of 0.7 is not modelled). */
  datatype Request = Request(
    url: string,
    contentType: string,
    authorization: string,
    model: string,
    messages: seq<ChatTurn>,
    maxTokens: nat)

  /** The fixed system instructions before the optional context line. */
  const PromptHead: string :=
    "You are WOODY AI Assistant, an expert software developer specializing in web applications, mobile apps, and AI-powered solutions.\n"
    + "\n"
    + "Key information about me:\n"
    + "- Professional software developer with expertise in modern technologies\n"
    + "- Specializes in React, Next.js, TypeScript, Python, and cloud technologies\n"
    + "- Experience with Supabase, PostgreSQL, AWS, and various AI integrations\n"
    + "- Focus on agile development practices and clean code principles\n"
    + "\n"

  /** The fixed system instructions after the optional context line. */
  const PromptTail: string :=
    "\n"
    + "\n"
    + "Please provide helpful, accurate responses about my projects, technical skills, and experience. Be professional, knowledgeable, and engaging."

  const ContextLabel: string := "Context: "

  /** `context ? \`Context: ${context}\` : ''` */
  function ContextLine(context: Option<string>): string {
    if TextTruthy(context) then ContextLabel + context.value else ""
  }

  function SystemPrompt(context: Option<string>): string {
    PromptHead + ContextLine(context) + PromptTail
  }

  /** A missing or empty context leaves the fixed instructions alone; a non-empty one inserts exactly the
      line `Context: <context>` between the two fixed parts, and nothing else changes. */
  lemma SystemPromptContext(context: Option<string>)
    ensures !TextTruthy(context) ==> SystemPrompt(context) == SystemPrompt(None)
    ensures TextTruthy(context) ==>
      var bare := SystemPrompt(None);
      var c := context.value;
      && |SystemPrompt(context)| == |bare| + |ContextLabel| + |c|
      && SystemPrompt(context)[|PromptHead|..][..|ContextLabel| + |c|] == ContextLabel + c
      && SystemPrompt(context) == bare[..|PromptHead|] + (ContextLabel + c) + bare[|PromptHead|..]
  {
    if TextTruthy(context) {
      SystemPromptWithContext(context.value);
    } else {
      SystemPromptWithoutContext(context);
    }
  }

  lemma SystemPromptWithoutContext(context: Option<string>)
    requires !TextTruthy(context)
    ensures SystemPrompt(context) == SystemPrompt(None)
  {
    assert ContextLine(context) == ContextLine(None) == "";
  }

  lemma SystemPromptWithContext(c: string)
    requires c != ""
    ensures
      var bare := SystemPrompt(None);
      && |SystemPrompt(Some(c))| == |bare| + |ContextLabel| + |c|
      && SystemPrompt(Some(c))[|PromptHead|..][..|ContextLabel| + |c|] == ContextLabel + c
      && SystemPrompt(Some(c)) == bare[..|PromptHead|] + (ContextLabel + c) + bare[|PromptHead|..]
  {
    assert ContextLine(None) == "";
    assert ContextLine(Some(c)) == ContextLabel + c;
    Insertion(PromptHead, ContextLabel + c, PromptTail, SystemPrompt(None));
  }

  /** Inserting `x` between `h` and `t`, whose concatenation is `bare`, adds exactly `x`, at position
      `|h|`. */
  lemma Insertion(h: string, x: string, t: string, bare: string)
    requires bare == h + "" + t
    ensures |h + x + t| == |bare| + |x|
    ensures (h + x + t)[|h|..][..|x|] == x
    ensures h + x + t == bare[..|h|] + x + bare[|h|..]
  {
    assert h + "" == h;
    assert bare[..|h|] == h;
    assert bare[|h|..] == t;
    assert (h + x + t)[|h|..] == x + t;
  }

  /** The request `callProvider` sends to one provider. */
  function BuildRequest(p: Provider, message: string, context: Option<string>): Request {
    Request(
      p.baseUrl + "/chat/completions",
      "application/json",
      "Bearer " + p.apiKey,
      p.model,
      [ChatTurn("system", SystemPrompt(context)), ChatTurn("user", message)],
      MaxTokens)
  }

  /** The request goes to the provider's completions endpoint with its key as bearer token and its
      model, carries exactly the system instructions and the untouched user message, and asks for at
      most 500 tokens; the system instructions mention the context exactly when it is non-empty. */
  lemma RequestShape(p: Provider, message: string, context: Option<string>)
    ensures var r := BuildRequest(p, message, context);
      && r.url[..|p.baseUrl|] == p.baseUrl
      && r.url[|p.baseUrl|..] == "/chat/completions"
      && r.authorization == "Bearer " + p.apiKey
      && r.model == p.model
      && |r.messages| == 2
      && r.messages[0].role == "system"
      && r.messages[1] == ChatTurn("user", message)
      && r.maxTokens == 500
      && (TextTruthy(context) ==> Contains(r.messages[0].content, ContextLabel + context.value))
      && (!TextTruthy(context) ==> r.messages[0].content == SystemPrompt(None))
  {
    var r := BuildRequest(p, message, context);
    SystemPromptContext(context);
    if TextTruthy(context) {
      var c := ContextLabel + context.value;
      assert r.messages[0].content[|PromptHead|..][..|c|] == c;
    }
  }

  // ----- the response ------------------------------------------------------------------------

  /** What one provider call produced on the wire: `fetch` rejected, or a response arrived with its
      status, the outcome of `response.text()` (awaited only when the status is not 2xx) and the
      outcome of `response.json()` (awaited only when it is). */
  datatype HttpOutcome =
    | TransportError(error: Thrown)
    | HttpReply(status: nat, bodyText: Result<string, Thrown>, json: Result<Json, Thrown>)

  /** `response.ok`. */
  predicate IsOk(status: nat) {
    200 <= status <= 299
  }

  const NoContentError: Thrown := ErrorObject("No content in API response")

  /** Reading `data.choices` when the body is JSON `null` throws a TypeError. */
  const NullBodyError: Thrown := ErrorObject("Cannot read properties of null (reading 'choices')")

  function StatusError(status: nat, bodyText: string): Thrown {
    ErrorObject("API call failed: " + Decimal(status) + " - " + bodyText)
  }

  /** The five places a completion may sit, in the order they are tried:
      `choices[0].message.content`, `choices[0].text`, `choices[0].delta.content`, `content`, `response`. */
  function Shapes(data: Json): (r: seq<Option<Json>>)
    ensures |r| == 5
  {
    var choice := Index0(Member(Some(data), "choices"));
    [ Member(Member(choice, "message"), "content"),
      Member(choice, "text"),
      Member(Member(choice, "delta"), "content"),
      Member(Some(data), "content"),
      Member(Some(data), "response") ]
  }

  /** The first truthy candidate, if any: the reference reading of an ordered list of extractors. */
  function FirstTruthy(candidates: seq<Option<Json>>): (r: Option<Json>)
    ensures r.Some? ==> Truthy(r.value)
    ensures r.Some? ==> exists k :: (0 <= k < |candidates| && candidates[k] == r
                                     && forall j :: 0 <= j < k ==> !IsTruthy(candidates[j]))
    ensures r.None? <==> forall j :: 0 <= j < |candidates| ==> !IsTruthy(candidates[j])
  {
    if candidates == [] then None
    else if IsTruthy(candidates[0]) then candidates[0]
    else
      var rest := FirstTruthy(candidates[1..]);
      assert rest.Some? ==> exists k :: (0 <= k < |candidates[1..]| && candidates[1..][k] == rest
                                         && forall j :: 0 <= j < k ==> !IsTruthy(candidates[1..][j]));
      assert forall j :: 1 <= j < |candidates| ==> candidates[j] == candidates[1..][j - 1];
      rest
  }

  /** The if/else-if chain of `callProvider` over a parsed 2xx body. Each test is JavaScript
      truthiness, so an empty string at one place falls through to the next. */
  function ExtractContent(data: Json): (r: Result<Json, Thrown>)
    ensures r.Success? ==> Truthy(r.value)
    ensures r.Failure? ==> r.error == NullBodyError || r.error == NoContentError
  {
    if data == JNull then Failure(NullBodyError)
    else
      var choice := Index0(Member(Some(data), "choices"));
      if IsTruthy(Member(Member(choice, "message"), "content")) then Success(Member(Member(choice, "message"), "content").value)
      else if IsTruthy(Member(choice, "text")) then Success(Member(choice, "text").value)
      else if IsTruthy(Member(Member(choice, "delta"), "content")) then Success(Member(Member(choice, "delta"), "content").value)
      else if IsTruthy(Member(Some(data), "content")) then Success(Member(Some(data), "content").value)
      else if IsTruthy(Member(Some(data), "response")) then Success(Member(Some(data), "response").value)
      else Failure(NoContentError)
  }

  /** The if/else-if chain picks the first truthy shape in priority order, and fails with
      `No content in API response` exactly when no shape holds a truthy value. */
  lemma {:induction false} ExtractContentIsFirstTruthy(data: Json)
    requires data != JNull
    ensures ExtractContent(data) == match FirstTruthy(Shapes(data))
      case Some(v) => Success(v)
      case None => Failure(NoContentError)
  {
    var s := Shapes(data);
    FirstTruthyOfFive(s[0], s[1], s[2], s[3], s[4]);
    assert s == [s[0], s[1], s[2], s[3], s[4]];
  }

  /** `FirstTruthy` unfolded over a list of five candidates. */
  lemma FirstTruthyOfFive(a: Option<Json>, b: Option<Json>, c: Option<Json>, d: Option<Json>, e: Option<Json>)
    ensures FirstTruthy([a, b, c, d, e]) ==
      if IsTruthy(a) then a else if IsTruthy(b) then b else if IsTruthy(c) then c
      else if IsTruthy(d) then d else if IsTruthy(e) then e else None
  {
    FirstTruthyCons(e, []);
    FirstTruthyCons(d, [e]);
    FirstTruthyCons(c, [d, e]);
    FirstTruthyCons(b, [c, d, e]);
    FirstTruthyCons(a, [b, c, d, e]);
  }

  /** One step of `FirstTruthy`: a truthy head wins, a falsy one is skipped. */
  lemma FirstTruthyCons(x: Option<Json>, rest: seq<Option<Json>>)
    ensures FirstTruthy([x] + rest) == if IsTruthy(x) then x else FirstTruthy(rest)
  {
    assert ([x] + rest)[0] == x;
    assert ([x] + rest)[1..] == rest;
  }

  /** The two shapes the normaliser is meant for. */
  lemma ExtractContentExamples()
    ensures ExtractContent(JObject(map["choices" := JArray([JObject(map["message" := JObject(map["content" := JString("hi")])])])]))
      == Success(JString("hi"))
    ensures ExtractContent(JObject(map["choices" := JArray([JObject(map["text" := JString("hi")])])]))
      == Success(JString("hi"))
  {
  }

  /** An empty string falls through to a later shape; an empty object has no content and `null` throws
      on reading `choices`. */
  lemma ExtractContentFallThrough()
    ensures ExtractContent(JObject(map["choices" := JArray([JObject(map["message" := JObject(map["content" := JString("")])])]),
                                       "response" := JString("late")]))
      == Success(JString("late"))
    ensures ExtractContent(JObject(map[])) == Failure(NoContentError)
    ensures ExtractContent(JNull) == Failure(NullBodyError)
  {
  }

  /** `callProvider` after the request has gone out: a rejected `fetch`, `response.text()` or
      `response.json()` propagates, a non-2xx status fails with `API call failed: <status> - <body>`
      before any parsing,
      and a 2xx body is handed to the normaliser. The text is returned as extracted, untrimmed. */
  function CallProvider(outcome: HttpOutcome): (r: Result<Json, Thrown>)
    ensures r.Success? ==> outcome.HttpReply? && IsOk(outcome.status) && outcome.json.Success?
    ensures r.Success? ==> Truthy(r.value) && Some(r.value) in Shapes(outcome.json.value)
    // the failures in full: a rejected `fetch`, `text()` or `json()` propagates unchanged, and a
    // non-2xx status whose body was read throws `API call failed: <status> - <body>`
    ensures outcome.TransportError? ==> r == Failure(outcome.error)
    ensures outcome.HttpReply? && !IsOk(outcome.status) && outcome.bodyText.Failure? ==>
      r == Failure(outcome.bodyText.error)
    ensures outcome.HttpReply? && !IsOk(outcome.status) && outcome.bodyText.Success? ==>
      r == Failure(StatusError(outcome.status, outcome.bodyText.value))
    ensures outcome.HttpReply? && IsOk(outcome.status) && outcome.json.Failure? ==> r == Failure(outcome.json.error)
    // a parsed 2xx body goes to the normaliser (see `CallProviderReadsFirstTruthyShape`)
    ensures outcome.HttpReply? && IsOk(outcome.status) && outcome.json.Success? ==>
      r == ExtractContent(outcome.json.value)
  {
    match outcome
    case TransportError(e) => Failure(e)
    case HttpReply(status, bodyText, json) =>
      if !IsOk(status) then
        match bodyText
        case Failure(e) => Failure(e)
        case Success(text) => Failure(StatusError(status, text))
      else match json
        case Failure(e) => Failure(e)
        case Success(data) =>
          var r := ExtractContent(data);
          if data != JNull then
            ExtractContentIsFirstTruthy(data);
            r
          else r
  }

  /** A provider call with a parsed 2xx body returns the first truthy of the five shapes, fails with
      `No content in API response` exactly when none is truthy, and fails with the TypeError of reading
      `choices` when the body is `null`. */
  lemma CallProviderReadsFirstTruthyShape(outcome: HttpOutcome)
    requires outcome.HttpReply? && IsOk(outcome.status) && outcome.json.Success?
    ensures outcome.json.value != JNull ==>
      CallProvider(outcome) == match FirstTruthy(Shapes(outcome.json.value))
        case Some(v) => Success(v)
        case None => Failure(NoContentError)
    ensures outcome.json.value == JNull ==> CallProvider(outcome) == Failure(NullBodyError)
  {
    if outcome.json.value != JNull {
      ExtractContentIsFirstTruthy(outcome.json.value);
    }
  }

  /** What the fallback loop makes of one provider's outcome: the reply it returns, or `None` when it
      moves on. An error is caught and swallowed; a falsy result fails `if (response)`; a truthy value
      that is not a string makes the success log's `response.substring` throw inside the same `try`,
      which is swallowed too. */
  function Accepted(outcome: HttpOutcome): (r: Option<string>)
    ensures r.Some? ==> r.value != "" && CallProvider(outcome) == Success(JString(r.value))
    ensures r.Some? <==>
      CallProvider(outcome).Success? && CallProvider(outcome).value.JString? && CallProvider(outcome).value.s != ""
  {
    match CallProvider(outcome)
    case Failure(_) => None
    case Success(content) =>
      if !Truthy(content) then None
      else if content.JString? then Some(content.s)
      else None
  }

  /** The index of the first provider whose outcome the loop accepts. */
  function FirstAccepted(outcomes: seq<HttpOutcome>): (r: Option<nat>)
    ensures r.Some? ==> r.value < |outcomes| && Accepted(outcomes[r.value]).Some?
    ensures r.Some? ==> forall j :: 0 <= j < r.value ==> Accepted(outcomes[j]).None?
    ensures r.None? ==> forall j :: 0 <= j < |outcomes| ==> Accepted(outcomes[j]).None?
  {
    if outcomes == [] then None
    else if Accepted(outcomes[0]).Some? then Some(0)
    else match FirstAccepted(outcomes[1..])
      case None => None
      case Some(k) => Some(k + 1)
  }

  // ----- canned replies ----------------------------------------------------------------------

  /** The eight canned replies, in source order. */
  const MockResponses: seq<string> := [
    "I'd be happy to help you learn more about my projects and technical expertise!",
    "That's a great question about my work. Let me tell you about my experience with modern web technologies.",
    "I specialize in full-stack development with React, Next.js, and various backend technologies. What specific aspect interests you?",
    "My portfolio showcases projects in web development, mobile apps, and AI integration. Each project demonstrates different technical skills and problem-solving approaches.",
    "I have extensive experience with TypeScript, Python, and cloud technologies like AWS. I'm always excited to discuss technical implementations and best practices.",
    "As a professional developer, I focus on creating scalable, maintainable solutions using modern development practices and clean code principles.",
    "I'm passionate about leveraging AI and machine learning to create innovative solutions. My projects often incorporate cutting-edge technologies.",
    "Quality and user experience are paramount in my development approach. I believe in thorough testing, documentation, and continuous improvement."
  ]

  /** `getMockResponse`: one of the eight canned replies, chosen by `pick`, which stands for
      `Math.floor(Math.random() * 8)`. The user's message does not influence the choice. */
  function MockResponse(pick: nat): (r: string)
    requires pick < |MockResponses|
    ensures r in MockResponses && r != ""
  {
    MockResponses[pick]
  }

  /** The text of `getContextInfo` between the template literal's leading line break and its trailing
      line break and indentation. */
  const ContextText: string :=
    "My key projects include:\n"
    + "- Basketball League Management System (Next.js, Supabase, React Native)\n"
    + "- AI-Powered Portfolio Website (Next.js, TypeScript, Supabase)\n"
    + "- WOODY SOFTWARE DEVELOPMENT SERVICES (React, Node.js, AWS)\n"
    + "\n"
    + "My technical skills include:\n"
    + "- Frontend: JavaScript/TypeScript, React/Next.js, Tailwind CSS\n"
    + "- Backend: Python, Node.js, PostgreSQL, Supabase\n"
    + "- Cloud: AWS, Docker\n"
    + "- AI/ML: Integration with various AI models and services\n"
    + "- Other: Git, Agile/Scrum, REST APIs, GraphQL\n"
    + "\n"
    + "I have 5+ years of experience in full-stack development and specialize in modern web technologies."

  /** The template literal of `getContextInfo`, before `.trim()`. */
  const ContextTemplate: string := "\n" + ContextText + "\n    "

  /** `getContextInfo`: the summary text. It is never empty, so a request built with it always carries a
      context line. */
  function ContextInfo(): (r: string)
    ensures TextTruthy(Some(r))
  {
    ContextText
  }

  /** The summary is exactly the template literal with `.trim()` applied: the leading line break and the
      trailing line break and indentation go, and nothing inside the text is touched. */
  lemma ContextInfoIsTrimmedTemplate()
    ensures ContextInfo() == Trim(ContextTemplate)
  {
    assert ContextText[0] == 'M';
    assert ContextText[|ContextText| - 1] == '.';
    TrimAround("\n", ContextText, "\n    ");
  }

  // ----- the service -------------------------------------------------------------------------

  /** The service object. Its provider list is filled once, by the constructor, from the DeepSeek key
      in the environment, and only read afterwards. */
  class AIService {
    var providers: seq<Provider>

    /** An unset or empty key leaves the list empty; any other key registers DeepSeek, once. */
    constructor (deepSeekKey: Option<string>)
      ensures !TextTruthy(deepSeekKey) ==> providers == []
      ensures TextTruthy(deepSeekKey) ==> providers == [DeepSeek(deepSeekKey.value)]
    {
      providers := [];
      if TextTruthy(deepSeekKey) {
        providers := providers + [DeepSeek(deepSeekKey.value)];
      }
    }

    /** `getAIResponse`. `network[i]` is what the call to `providers[i]` produces and `pick` the random
        index of the canned reply. Providers are tried in list order, each at most once; `sent` lists the
        requests issued, so a provider after the one whose reply is returned is never called. Nothing is
        thrown: every failure moves on, and when no provider is configured or none answers, a canned
        reply is returned. */
    method GetAIResponse(message: string, context: Option<string>, network: seq<HttpOutcome>, pick: nat)
      returns (reply: string, sent: seq<Request>)
      requires |network| == |providers|
      requires pick < |MockResponses|
      ensures reply != ""
      ensures |sent| <= |providers|
      ensures forall i :: 0 <= i < |sent| ==> sent[i] == BuildRequest(providers[i], message, context)
      ensures providers == [] ==> sent == [] && reply == MockResponse(pick)
      ensures FirstAccepted(network).Some? ==>
        var k := FirstAccepted(network).value;
        |sent| == k + 1 && Accepted(network[k]) == Some(reply)
      ensures FirstAccepted(network).None? ==> |sent| == |providers| && reply == MockResponse(pick)
    {
      if |providers| == 0 {
        reply, sent := MockResponse(pick), [];
        return;
      }
      var answer;
      answer, sent := TryProviders(message, context, network);
      if answer.Some? {
        reply := answer.value;
      } else {
        reply := MockResponse(pick);
      }
    }

    /** The `for … of` loop of `getAIResponse`: the providers are called in list order until one
        call yields a non-empty reply, which is `answer`; `sent` lists the requests issued. */
    method TryProviders(message: string, context: Option<string>, network: seq<HttpOutcome>)
      returns (answer: Option<string>, sent: seq<Request>)
      requires |network| == |providers|
      ensures |sent| <= |providers|
      ensures forall i :: 0 <= i < |sent| ==> sent[i] == BuildRequest(providers[i], message, context)
      ensures FirstAccepted(network).Some? ==>
        var k := FirstAccepted(network).value;
        |sent| == k + 1 && answer == Accepted(network[k])
      ensures FirstAccepted(network).None? ==> |sent| == |providers| && answer == None
    {
      sent := [];
      var i := 0;
      while i < |providers|
        invariant 0 <= i <= |providers|
        invariant |sent| == i
        invariant forall j :: 0 <= j < i ==> sent[j] == BuildRequest(providers[j], message, context)
        invariant forall j :: 0 <= j < i ==> Accepted(network[j]).None?
      {
        sent := sent + [BuildRequest(providers[i], message, context)];
        answer := Accepted(network[i]);
        if answer.Some? {
          return;
        }
        i := i + 1;
      }
      answer := None;
    }
  }

  /** The service built from an unset key answers every message with a canned reply and sends nothing. */
  method UnconfiguredServiceUsesCannedReply(message: string, context: Option<string>, pick: nat)
    returns (reply: string, sent: seq<Request>)
    requires pick < |MockResponses|
    ensures reply in MockResponses
    ensures sent == []
  {
    var service := new AIService(None);
    reply, sent := service.GetAIResponse(message, context, [], pick);
  }
}
