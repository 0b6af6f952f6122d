/**
  The AI provider layer: role-tagged chat messages, the Gemini provider that turns
  them into a `generateContent` request and reads the reply, the provider factory
  and the service that wraps one provider.

  The HTTP exchange itself is not modelled: a request is built by a pure function,
  a transport function supplied by the caller answers it, and a second pure
  function reads the answer.
 */
module AIProviders {
  import opened Wrappers
  import opened Strings
  import opened JsonValues

  datatype Role = System | User | Assistant

  datatype ChatMessage = ChatMessage(role: Role, content: string)

  /** The optional settings a caller may pass; `None` is an absent property. */
  datatype AIOptions = AIOptions(temperature: Option<real>, maxTokens: Option<int>, model: Option<string>, stream: Option<bool>)

  /** `{}`: the options object used when a caller passes none. */
  const NoOptions := AIOptions(None, None, None, None)

  /** `{ temperature, maxTokens }` with both set. */
  function Options(temperature: real, maxTokens: int): AIOptions {
    AIOptions(Some(temperature), Some(maxTokens), None, None)
  }

  /** The settings after defaulting. */
  datatype Settings = Settings(temperature: real, maxTokens: int, model: string)

  const DefaultTemperature: real := 0.7
  const DefaultMaxTokens: int := 1000
  const DefaultModel := "gemini-1.5-flash"

  /** Destructuring with defaults: an absent setting takes its default, a supplied one is kept. */
  function ResolveOptions(o: AIOptions): (s: Settings)
    ensures s.temperature == (if o.temperature.Some? then o.temperature.value else DefaultTemperature)
    ensures s.maxTokens == (if o.maxTokens.Some? then o.maxTokens.value else DefaultMaxTokens)
    ensures s.model == (if o.model.Some? then o.model.value else DefaultModel)
  {
    Settings(
      match o.temperature case Some(t) => t case None => DefaultTemperature,
      match o.maxTokens case Some(m) => m case None => DefaultMaxTokens,
      match o.model case Some(m) => m case None => DefaultModel)
  }

  /** `{ ...o, temperature: t }`. */
  function WithTemperature(o: AIOptions, t: real): AIOptions {
    o.(temperature := Some(t))
  }

  /** Overriding the temperature fixes it whatever was passed, and leaves the other settings alone. */
  lemma OverrideTemperature(o: AIOptions, t: real)
    ensures ResolveOptions(WithTemperature(o, t)).temperature == t
    ensures ResolveOptions(WithTemperature(o, t)).maxTokens == ResolveOptions(o).maxTokens
    ensures ResolveOptions(WithTemperature(o, t)).model == ResolveOptions(o).model
  {
  }

  // ---------------------------------------------------------------------------
  // Message conversion to the Gemini `contents` format
  // ---------------------------------------------------------------------------

  datatype Part = Part(text: string)

  /** A Gemini turn: role "user" or "model" and its text parts. */
  datatype Content = Content(role: string, parts: seq<Part>)

  /** The non-system messages, in their original order. */
  function NonSystem(messages: seq<ChatMessage>): (r: seq<ChatMessage>)
    ensures |r| <= |messages|
    ensures forall i :: 0 <= i < |r| ==> r[i].role != System && r[i] in messages
    decreases |messages|
  {
    if |messages| == 0 then []
    else (if messages[0].role == System then [] else [messages[0]]) + NonSystem(messages[1..])
  }

  /** Filtering distributes over concatenation: it keeps order and nothing is reordered across the seam. */
  lemma {:induction false} NonSystemAppend(a: seq<ChatMessage>, b: seq<ChatMessage>)
    ensures NonSystem(a + b) == NonSystem(a) + NonSystem(b)
    decreases |a|
  {
    if |a| == 0 {
      assert a + b == b;
    } else {
      assert (a + b)[1..] == a[1..] + b;
      NonSystemAppend(a[1..], b);
    }
  }

  /** A sequence without system messages passes the filter unchanged. */
  lemma {:induction false} NonSystemKeepsAll(messages: seq<ChatMessage>)
    requires forall i :: 0 <= i < |messages| ==> messages[i].role != System
    ensures NonSystem(messages) == messages
    decreases |messages|
  {
    if |messages| > 0 {
      NonSystemKeepsAll(messages[1..]);
    }
  }

  /** `messages.find(m => m.role === "system")`. */
  function FirstSystem(messages: seq<ChatMessage>): (r: Option<ChatMessage>)
    ensures r.Some? ==> r.value.role == System && r.value in messages
    ensures r.None? ==> forall i :: 0 <= i < |messages| ==> messages[i].role != System
    decreases |messages|
  {
    if |messages| == 0 then None
    else if messages[0].role == System then Some(messages[0])
    else FirstSystem(messages[1..])
  }

  /** The first system message is found before anything that follows it. */
  lemma {:induction false} FirstSystemAppend(a: seq<ChatMessage>, b: seq<ChatMessage>)
    ensures FirstSystem(a + b) == if FirstSystem(a).Some? then FirstSystem(a) else FirstSystem(b)
    decreases |a|
  {
    if |a| == 0 {
      assert a + b == b;
    } else {
      assert (a + b)[1..] == a[1..] + b;
      FirstSystemAppend(a[1..], b);
    }
  }

  /** One non-system message as a Gemini turn: "assistant" becomes "model", anything else "user". */
  function ToContent(m: ChatMessage): Content {
    Content(if m.role == Assistant then "model" else "user", [Part(m.content)])
  }

  function ToContents(messages: seq<ChatMessage>): (r: seq<Content>)
    ensures |r| == |messages|
    ensures forall i :: 0 <= i < |messages| ==> r[i] == ToContent(messages[i])
  {
    seq(|messages|, i requires 0 <= i < |messages| => ToContent(messages[i]))
  }

  /** Conversion is turn by turn, so it distributes over concatenation. */
  lemma ToContentsAppend(a: seq<ChatMessage>, b: seq<ChatMessage>)
    ensures ToContents(a + b) == ToContents(a) + ToContents(b)
  {
  }

  /** The user turn that stands for a system message. */
  function SystemTurn(m: ChatMessage): Content {
    Content("user", [Part("System: " + m.content)])
  }

  /**
    The `contents` sent for a message list: the converted non-system messages,
    preceded by one user turn carrying the first system message, if there is one.
   */
  function GeminiContents(messages: seq<ChatMessage>): (r: seq<Content>)
    ensures |r| == |NonSystem(messages)| + (if FirstSystem(messages).Some? then 1 else 0)
  {
    var converted := ToContents(NonSystem(messages));
    match FirstSystem(messages)
    case Some(m) => [SystemTurn(m)] + converted
    case None => converted
  }

  /** Gemini roles are only ever "user" and "model"; a "model" turn is exactly an assistant message. */
  lemma ContentRoles(messages: seq<ChatMessage>)
    ensures forall i :: 0 <= i < |GeminiContents(messages)| ==> GeminiContents(messages)[i].role in {"user", "model"}
    ensures FirstSystem(messages).None? ==>
      forall i :: 0 <= i < |GeminiContents(messages)| ==>
        (GeminiContents(messages)[i].role == "model" <==> NonSystem(messages)[i].role == Assistant)
  {
  }

  /** Later system messages are discarded: adding one after the first changes nothing. */
  lemma LaterSystemIgnored(a: seq<ChatMessage>, m: ChatMessage, b: seq<ChatMessage>)
    requires FirstSystem(a).Some? && m.role == System
    ensures GeminiContents(a + [m] + b) == GeminiContents(a + b)
  {
    NonSystemSkips(a, m, b);
    FirstSystemSkips(a, m, b);
    ContentsDetermined(a + [m] + b, a + b);
  }

  /** The filter drops a system message wherever it stands. */
  lemma NonSystemSkips(a: seq<ChatMessage>, m: ChatMessage, b: seq<ChatMessage>)
    requires m.role == System
    ensures NonSystem(a + [m] + b) == NonSystem(a + b)
  {
    NonSystemAppend(a, [m]);
    assert NonSystem([m]) == [];
    assert NonSystem(a + [m]) == NonSystem(a);
    NonSystemAppend(a + [m], b);
    NonSystemAppend(a, b);
  }

  /** Once a system message has been seen, later ones do not change the first. */
  lemma FirstSystemSkips(a: seq<ChatMessage>, m: ChatMessage, b: seq<ChatMessage>)
    requires FirstSystem(a).Some?
    ensures FirstSystem(a + [m] + b) == FirstSystem(a + b)
  {
    FirstSystemAppend(a + [m], b);
    FirstSystemAppend(a, [m]);
    FirstSystemAppend(a, b);
  }

  /** The contents depend only on the filtered messages and on the first system message. */
  lemma ContentsDetermined(x: seq<ChatMessage>, y: seq<ChatMessage>)
    requires NonSystem(x) == NonSystem(y) && FirstSystem(x) == FirstSystem(y)
    ensures GeminiContents(x) == GeminiContents(y)
  {
  }

  /** A leading system message over a system-free conversation becomes the first turn; the rest maps one to one. */
  lemma {:induction false} SystemThenConversation(system: string, conversation: seq<ChatMessage>)
    requires forall i :: 0 <= i < |conversation| ==> conversation[i].role != System
    ensures GeminiContents([ChatMessage(System, system)] + conversation)
         == [Content("user", [Part("System: " + system)])] + ToContents(conversation)
  {
    var all := [ChatMessage(System, system)] + conversation;
    assert all[1..] == conversation;
    NonSystemKeepsAll(conversation);
  }

  /**
    The conversion in `generateResponse`: filter and map, then the system turn is
    inserted in front by `contents.unshift`.
   */
  method ConvertMessages(messages: seq<ChatMessage>) returns (contents: seq<Content>)
    ensures contents == GeminiContents(messages)
    ensures |contents| <= |messages|
  {
    contents := ToContents(NonSystem(messages));
    var systemMessage := FirstSystem(messages);
    if systemMessage.Some? {
      contents := [SystemTurn(systemMessage.value)] + contents;
      assert |NonSystem(messages)| < |messages| by {
        NonSystemShorter(messages);
      }
    }
  }

  /** A message list that holds a system message loses at least that one to the filter. */
  lemma {:induction false} NonSystemShorter(messages: seq<ChatMessage>)
    requires FirstSystem(messages).Some?
    ensures |NonSystem(messages)| < |messages|
    decreases |messages|
  {
    if messages[0].role != System {
      NonSystemShorter(messages[1..]);
    }
  }

  // ---------------------------------------------------------------------------
  // Requests and replies
  // ---------------------------------------------------------------------------

  const BaseUrl := "https://generativelanguage.googleapis.com/v1beta"

  datatype GenerationConfig = GenerationConfig(temperature: real, maxOutputTokens: int, topP: real, topK: int)

  /** What is POSTed: the endpoint with the model and key in it, the turns and the generation settings. */
  datatype GeminiRequest = GeminiRequest(url: string, contents: seq<Content>, generationConfig: GenerationConfig)

  /** What the transport answers: a rejected `fetch`, or a status with its body as text and as parsed JSON. */
  datatype HttpReply =
    | Rejected(message: string)
    | Answered(status: nat, bodyText: string, bodyJson: Result<Json, string>)

  const NoResponseText := "No response generated"

  /** The value `data.candidates?.[0]?.content?.parts?.[0]?.text`, or `None` where the chain breaks off. */
  function TextAt(data: Json): Option<Json> {
    var candidate := Element(Member(Some(data), "candidates"), 0);
    var part := Element(Member(Member(candidate, "content"), "parts"), 0);
    Member(part, "text")
  }

  /**
    `data.candidates?.[0]?.content?.parts?.[0]?.text || "No response generated"`.
    A non-empty string is the reply; an absent or falsy value gives the fallback
    text. A body of `null` throws on the first property read, and a truthy value
    that is not a string makes the caller's string method throw.
   */
  function ExtractText(data: Json): (r: Result<string, string>)
    ensures r.Ok? ==> r.value != ""
    ensures data == Null ==> r.Err?
    ensures data != Null && TextAt(data).Some? && TextAt(data).value.Str? && TextAt(data).value.s != "" ==>
      r == Ok(TextAt(data).value.s)
    ensures data != Null && !Truthy(TextAt(data)) ==> r == Ok(NoResponseText)
    ensures data != Null && Truthy(TextAt(data)) && !TextAt(data).value.Str? ==> r.Err?
  {
    if data == Null then Err("Cannot read properties of null (reading 'candidates')")
    else
      var text := TextAt(data);
      match text
      case Some(Str(s)) => if s != "" then Ok(s) else Ok(NoResponseText)
      case _ => if Truthy(text) then Err("response.trim is not a function") else Ok(NoResponseText)
  }

  /** The reply text of an answer is its first candidate's first part, whatever else the objects hold. */
  lemma ExtractFirstPart(top: map<string, Json>, candidate: map<string, Json>, content: map<string, Json>,
                         part: map<string, Json>, moreParts: seq<Json>, moreCandidates: seq<Json>, text: string)
    requires text != ""
    requires "candidates" in top && top["candidates"] == Arr([Obj(candidate)] + moreCandidates)
    requires "content" in candidate && candidate["content"] == Obj(content)
    requires "parts" in content && content["parts"] == Arr([Obj(part)] + moreParts)
    requires "text" in part && part["text"] == Str(text)
    ensures ExtractText(Obj(top)) == Ok(text)
  {
    assert TextAt(Obj(top)) == Some(Str(text));
  }

  /** An answer without candidates, or whose first candidate has no parts, yields the fallback text. */
  lemma ExtractFallbacks(candidate: map<string, Json>, moreCandidates: seq<Json>)
    ensures ExtractText(Obj(map["candidates" := Arr([])])) == Ok(NoResponseText)
    ensures ExtractText(Obj(map[])) == Ok(NoResponseText)
    ensures "content" !in candidate ==> ExtractText(Obj(map["candidates" := Arr([Obj(candidate)] + moreCandidates)])) == Ok(NoResponseText)
    ensures ExtractText(Obj(map["candidates" := Arr([Obj(map["content" := Obj(map["parts" := Arr([])])])] + moreCandidates)])) == Ok(NoResponseText)
  {
  }

  /** The provider that talks to the Gemini API. The key is fixed when it is constructed. */
  datatype GeminiProvider = GeminiProvider(apiKey: string) {

    function Name(): string { "gemini" }

    /** The request of `generateResponse(messages, options)`. */
    function Request(messages: seq<ChatMessage>, options: AIOptions): (r: GeminiRequest)
      ensures r.contents == GeminiContents(messages)
      ensures r.generationConfig.temperature == ResolveOptions(options).temperature
      ensures r.generationConfig.maxOutputTokens == ResolveOptions(options).maxTokens
      ensures r.url == BaseUrl + "/models/" + ResolveOptions(options).model + ":generateContent?key=" + apiKey
    {
      var settings := ResolveOptions(options);
      GeminiRequest(
        BaseUrl + "/models/" + settings.model + ":generateContent?key=" + apiKey,
        GeminiContents(messages),
        GenerationConfig(settings.temperature, settings.maxTokens, 0.9, 40))
    }

    /** Reading the answer: a rejected fetch or a non-2xx status is an error, otherwise the reply text. */
    function ReadReply(reply: HttpReply): (r: Result<string, string>)
      ensures reply.Rejected? ==> r == Err(reply.message)
      ensures reply.Answered? && !(200 <= reply.status <= 299) ==>
        r == Err("Gemini API error: " + NatToString(reply.status) + " - " + reply.bodyText)
      ensures reply.Answered? && 200 <= reply.status <= 299 && reply.bodyJson.Ok? ==> r == ExtractText(reply.bodyJson.value)
      ensures reply.Answered? && 200 <= reply.status <= 299 && reply.bodyJson.Err? ==> r == Err(reply.bodyJson.error)
      ensures r.Ok? ==> r.value != ""
    {
      match reply
      case Rejected(message) => Err(message)
      case Answered(status, bodyText, bodyJson) =>
        if !(200 <= status <= 299) then Err("Gemini API error: " + NatToString(status) + " - " + bodyText)
        else
          match bodyJson
          case Err(parseError) => Err(parseError)
          case Ok(data) => ExtractText(data)
    }

    /** `generateResponse`: build the request, let the transport answer it, read the answer. */
    function GenerateResponse(messages: seq<ChatMessage>, options: AIOptions, transport: GeminiRequest -> HttpReply): (r: Result<string, string>)
      ensures r.Ok? ==> r.value != ""
    {
      ReadReply(transport(Request(messages, options)))
    }

    /** The two messages of `generateCodeSuggestion`: the fixed system instruction, then the prompt. */
    function CodeSuggestionMessages(prompt: string): (r: seq<ChatMessage>)
      ensures |r| == 2 && r[0] == ChatMessage(System, CodeSystemPrompt) && r[1] == ChatMessage(User, prompt)
    {
      [ChatMessage(System, CodeSystemPrompt), ChatMessage(User, prompt)]
    }

    /** The request of `generateCodeSuggestion(prompt, options)`. */
    function CodeSuggestionRequest(prompt: string, options: AIOptions): GeminiRequest {
      Request(CodeSuggestionMessages(prompt), WithTemperature(options, 0.3))
    }

    function GenerateCodeSuggestion(prompt: string, options: AIOptions, transport: GeminiRequest -> HttpReply): (r: Result<string, string>)
      ensures r.Ok? ==> r.value != ""
    {
      ReadReply(transport(CodeSuggestionRequest(prompt, options)))
    }
  }

  const CodeSystemPrompt := "You are an expert code completion assistant. Provide only the code that should be inserted at the cursor position. Do not include explanations or markdown formatting."

  /**
    A code-suggestion request holds exactly two turns, the system instruction and
    the prompt, at temperature 0.3 whatever the caller asked for, with the caller's
    other settings.
   */
  lemma CodeSuggestionRequestShape(p: GeminiProvider, prompt: string, options: AIOptions)
    ensures p.CodeSuggestionRequest(prompt, options).contents
         == [Content("user", [Part("System: " + CodeSystemPrompt)]), Content("user", [Part(prompt)])]
    ensures p.CodeSuggestionRequest(prompt, options).generationConfig.temperature == 0.3
    ensures p.CodeSuggestionRequest(prompt, options).generationConfig.maxOutputTokens == ResolveOptions(options).maxTokens
    ensures p.CodeSuggestionRequest(prompt, options).url == p.Request([], options).url
  {
    var ms := p.CodeSuggestionMessages(prompt);
    assert ms == [ChatMessage(System, CodeSystemPrompt)] + [ChatMessage(User, prompt)];
    SystemThenConversation(CodeSystemPrompt, [ChatMessage(User, prompt)]);
    OverrideTemperature(options, 0.3);
  }

  // ---------------------------------------------------------------------------
  // Factory and service
  // ---------------------------------------------------------------------------

  /** `AIProviderFactory.createProvider(providerName, apiKey)`. */
  function CreateProvider(providerName: string, apiKey: Option<string>): (r: Result<GeminiProvider, string>)
    ensures r.Ok? <==> ToLower(providerName) == "gemini" && apiKey.Some? && apiKey.value != ""
    ensures r.Ok? ==> r.value.apiKey == apiKey.value
    ensures r.Err? && ToLower(providerName) == "gemini" ==> r.error == "Gemini API key is required"
    ensures ToLower(providerName) != "gemini" ==> r == Err("Unknown AI provider: " + providerName)
  {
    if ToLower(providerName) == "gemini" then
      match apiKey
      case Some(key) => if key != "" then Ok(GeminiProvider(key)) else Err("Gemini API key is required")
      case None => Err("Gemini API key is required")
    else Err("Unknown AI provider: " + providerName)
  }

  /** `AIProviderFactory.getAvailableProviders()`. */
  function AvailableProviders(): (r: seq<string>)
    ensures |r| == 1
    ensures forall i :: 0 <= i < |r| ==> ToLower(r[i]) == r[i]
    ensures forall i, key :: 0 <= i < |r| && key != "" ==> CreateProvider(r[i], Some(key)) == Ok(GeminiProvider(key))
  {
    assert ToLower("gemini") == "gemini";
    ["gemini"]
  }

  /** Every advertised provider name is accepted by the factory, in any letter case, given a key. */
  lemma AvailableProvidersAccepted(name: string, key: string)
    requires ToLower(name) in AvailableProviders() && key != ""
    ensures CreateProvider(name, Some(key)) == Ok(GeminiProvider(key))
  {
  }

  /** Names that differ only in letter case select the same provider and fail the same way. */
  lemma CreateProviderIgnoresCase(name: string, key: Option<string>)
    ensures CreateProvider(ToLower(name), key).Ok? == CreateProvider(name, key).Ok?
    ensures CreateProvider(name, key).Ok? ==> CreateProvider(ToLower(name), key) == CreateProvider(name, key)
  {
    ToLowerIdempotent(name);
  }

  /** A service bound to one provider, chosen once when it is constructed. */
  datatype AIService = AIService(provider: GeminiProvider) {

    function GenerateResponse(messages: seq<ChatMessage>, options: AIOptions, transport: GeminiRequest -> HttpReply): Result<string, string> {
      provider.GenerateResponse(messages, options, transport)
    }

    function GenerateCodeSuggestion(prompt: string, options: AIOptions, transport: GeminiRequest -> HttpReply): Result<string, string> {
      provider.GenerateCodeSuggestion(prompt, options, transport)
    }

    function ProviderName(): string {
      provider.Name()
    }
  }

  /** `new AIService(providerName = "gemini", apiKey)`; the constructor throws what the factory throws. */
  function NewAIService(providerName: string := "gemini", apiKey: Option<string> := None): (r: Result<AIService, string>)
    ensures r.Ok? <==> CreateProvider(providerName, apiKey).Ok?
    ensures r.Ok? ==> r.value.provider == CreateProvider(providerName, apiKey).value && r.value.ProviderName() == "gemini"
    ensures r.Err? ==> r.error == CreateProvider(providerName, apiKey).error
  {
    match CreateProvider(providerName, apiKey)
    case Ok(p) => Ok(AIService(p))
    case Err(e) => Err(e)
  }

  /** Without a provider name the service uses Gemini: it is built exactly when a non-empty key is given. */
  lemma DefaultServiceIsGemini(key: Option<string>)
    ensures NewAIService(apiKey := key).Ok? <==> key.Some? && key.value != ""
    ensures NewAIService(apiKey := key).Ok? ==> NewAIService(apiKey := key).value.ProviderName() == AvailableProviders()[0]
  {
    assert ToLower("gemini") == "gemini";
  }
}
