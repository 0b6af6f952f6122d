/**
  The chat route: request validation, history sanitising and truncation, the
  message list sent to the provider, the retry policies of the two AI calls and
  the mapping of error text to an HTTP status.
 */
module Chat {
  import opened Wrappers
  import opened Strings
  import opened JsonValues
  import opened AIProviders
  import opened Environment

  /** The system prompt of the chat route, line by line. */
  const PromptRole := "You are an expert AI coding assistant. You help developers with:\n"
  const TopicExplain := "- Code explanations and debugging\n"
  const TopicPractice := "- Best practices and architecture advice\n"
  const TopicClean := "- Writing clean, efficient code\n"
  const TopicErrors := "- Troubleshooting errors\n"
  const TopicReview := "- Code reviews and optimizations\n\n"
  const StyleAnswers := "Always provide clear, practical answers. "
  const StyleFormat := "When showing code, use proper formatting with language-specific syntax.\n"
  const StyleConcise := "Keep responses concise but comprehensive. "
  const StyleBlocks := "Use code blocks with language specification when providing code examples."
  const SystemPrompt := PromptRole + TopicExplain + TopicPractice + TopicClean + TopicErrors + TopicReview
    + StyleAnswers + StyleFormat + StyleConcise + StyleBlocks

  /** How many history entries are forwarded, at most. */
  const HistoryLimit := 10

  const ChatOptions := Options(0.7, 1000)
  const EnhanceOptions := Options(0.3, 500)

  // ---------------------------------------------------------------------------
  // History and message list
  // ---------------------------------------------------------------------------

  /** A history entry is kept only if it is an object with string `role` "user" or "assistant" and string `content`. */
  predicate IsValidEntry(v: Json) {
    && v.Obj?
    && "role" in v.fields && v.fields["role"].Str? && v.fields["role"].s in {"user", "assistant"}
    && "content" in v.fields && v.fields["content"].Str?
  }

  function EntryMessage(v: Json): (m: ChatMessage)
    requires IsValidEntry(v)
    ensures m.role != System && m.content == v.fields["content"].s
    ensures m.role == (if v.fields["role"].s == "user" then User else Assistant)
  {
    ChatMessage(if v.fields["role"].s == "user" then User else Assistant, v.fields["content"].s)
  }

  /** `history.filter(isValidEntry)`. */
  function FilterHistory(items: seq<Json>): (r: seq<ChatMessage>)
    ensures |r| <= |items|
    ensures forall i :: 0 <= i < |r| ==> r[i].role != System
    decreases |items|
  {
    if |items| == 0 then []
    else (if IsValidEntry(items[0]) then [EntryMessage(items[0])] else []) + FilterHistory(items[1..])
  }

  /** The filter keeps a single entry exactly when it is valid. */
  lemma FilterHistorySingle(v: Json)
    ensures FilterHistory([v]) == if IsValidEntry(v) then [EntryMessage(v)] else []
  {
    assert [v][1..] == [];
  }

  /** The filter distributes over concatenation, so the kept entries stay in their original order. */
  lemma {:induction false} FilterHistoryAppend(a: seq<Json>, b: seq<Json>)
    ensures FilterHistory(a + b) == FilterHistory(a) + FilterHistory(b)
    decreases |a|
  {
    if |a| == 0 {
      assert a + b == b;
    } else {
      assert (a + b)[1..] == a[1..] + b;
      FilterHistoryAppend(a[1..], b);
    }
  }

  /** A history of valid entries is forwarded entry for entry. */
  lemma {:induction false} FilterHistoryKeepsValid(items: seq<Json>)
    requires forall i :: 0 <= i < |items| ==> IsValidEntry(items[i])
    ensures |FilterHistory(items)| == |items|
    ensures forall i :: 0 <= i < |items| ==> FilterHistory(items)[i] == EntryMessage(items[i])
    decreases |items|
  {
    if |items| > 0 {
      FilterHistoryKeepsValid(items[1..]);
    }
  }

  /** `Array.isArray(history) ? history.filter(...) : []`. */
  function ValidHistory(history: Option<Json>): (r: seq<ChatMessage>)
    ensures !(history.Some? && history.value.Arr?) ==> r == []
    ensures history.Some? && history.value.Arr? ==> r == FilterHistory(history.value.items)
  {
    match history
    case Some(Arr(items)) => FilterHistory(items)
    case _ => []
  }

  /** `validHistory.slice(-10)`: the last (at most) ten entries. */
  function RecentHistory(h: seq<ChatMessage>): (r: seq<ChatMessage>)
    ensures |r| == (if |h| < HistoryLimit then |h| else HistoryLimit)
    ensures r == h[|h| - |r|..]
  {
    if |h| <= HistoryLimit then h else h[|h| - HistoryLimit..]
  }

  /** `[...recentHistory, { role: "user", content: message }]`. */
  function Conversation(history: Option<Json>, message: string): seq<ChatMessage> {
    RecentHistory(ValidHistory(history)) + [ChatMessage(User, message)]
  }

  /**
    The conversation is the last at most ten valid history entries, in order,
    followed by the new message as a user turn; it holds no system message.
   */
  lemma ConversationShape(history: Option<Json>, message: string)
    ensures 1 <= |Conversation(history, message)| <= HistoryLimit + 1
    ensures Conversation(history, message)[|Conversation(history, message)| - 1] == ChatMessage(User, message)
    ensures var valid := ValidHistory(history);
      Conversation(history, message)[..|Conversation(history, message)| - 1]
        == valid[|valid| - (if |valid| < HistoryLimit then |valid| else HistoryLimit)..]
    ensures forall i :: 0 <= i < |Conversation(history, message)| ==> Conversation(history, message)[i].role != System
  {
    var c := Conversation(history, message);
    assert c[..|c| - 1] == RecentHistory(ValidHistory(history));
  }

  /** `[{ role: "system", content: systemPrompt }, ...messages]`. */
  function FullMessages(messages: seq<ChatMessage>): (r: seq<ChatMessage>)
    ensures |r| == |messages| + 1
    ensures r[0] == ChatMessage(System, SystemPrompt) && r[1..] == messages
  {
    [ChatMessage(System, SystemPrompt)] + messages
  }

  /** The request a chat attempt sends through the configured service. */
  function ChatRequest(service: AIService, messages: seq<ChatMessage>): GeminiRequest {
    service.provider.Request(FullMessages(messages), ChatOptions)
  }

  /**
    What reaches Gemini for a chat message: the system prompt as the first user
    turn, the recent valid history turn for turn, then the message; at most twelve
    turns, at temperature 0.7 with 1000 output tokens.
   */
  lemma ChatRequestShape(service: AIService, history: Option<Json>, message: string)
    ensures ChatRequest(service, Conversation(history, message)).contents
         == [Content("user", [Part("System: " + SystemPrompt)])]
            + ToContents(RecentHistory(ValidHistory(history)))
            + [Content("user", [Part(message)])]
    ensures |ChatRequest(service, Conversation(history, message)).contents| <= HistoryLimit + 2
    ensures ChatRequest(service, Conversation(history, message)).generationConfig.temperature == 0.7
    ensures ChatRequest(service, Conversation(history, message)).generationConfig.maxOutputTokens == 1000
  {
    ConversationShape(history, message);
    PromptedContents(SystemPrompt, RecentHistory(ValidHistory(history)), message);
  }

  /** The contents for a system prompt, a run of non-system turns and a closing user message. */
  lemma PromptedContents(system: string, recent: seq<ChatMessage>, message: string)
    requires forall i :: 0 <= i < |recent| ==> recent[i].role != System
    ensures GeminiContents([ChatMessage(System, system)] + (recent + [ChatMessage(User, message)]))
         == [Content("user", [Part("System: " + system)])] + ToContents(recent) + [Content("user", [Part(message)])]
  {
    var conv := recent + [ChatMessage(User, message)];
    assert forall i :: 0 <= i < |conv| ==> conv[i].role != System by {
      forall i | 0 <= i < |conv| ensures conv[i].role != System {
        if i < |recent| { assert conv[i] == recent[i]; }
      }
    }
    SystemThenConversation(system, conv);
    ToContentsAppend(recent, [ChatMessage(User, message)]);
  }

  // ---------------------------------------------------------------------------
  // Retry policies
  // ---------------------------------------------------------------------------

  /** A result together with the number of provider calls spent on it. */
  datatype Attempts<T> = Attempts(result: T, count: nat)

  /** The try block of `generateAIResponse` for attempt number `attempt`: get the provider, call it, trim. */
  function ChatAttempt(env: Env, net: (GeminiRequest, nat) -> HttpReply, messages: seq<ChatMessage>, attempt: nat): (r: Result<string, string>)
    ensures GetAIProvider(env).Err? ==> r == Err(GetAIProvider(env).error)
    ensures r.Ok? ==> Trim(r.value) == r.value
  {
    match GetAIProvider(env)
    case Err(e) => Err(e)
    case Ok(service) =>
      match ReadReplyOf(service, net(ChatRequest(service, messages), attempt))
      case Ok(text) => TrimIdempotent(text); Ok(Trim(text))
      case Err(e) => Err(e)
  }

  function ReadReplyOf(service: AIService, reply: HttpReply): (r: Result<string, string>)
    ensures r.Ok? ==> r.value != ""
  {
    service.provider.ReadReply(reply)
  }

  predicate IsFetchError(o: Result<string, string>) {
    o.Err? && Contains(o.error, "fetch")
  }

  /**
    `generateAIResponse(messages, retryCount)`, where `outcome(k)` is what attempt
    `k` produces. An attempt is repeated only after an error mentioning "fetch"
    and only while `retryCount < 2`, so a call from 0 makes at most three attempts;
    the result is that of the last attempt.
   */
  function GenerateAIResponse(outcome: nat -> Result<string, string>, retryCount: nat): (r: Attempts<Result<string, string>>)
    ensures 1 <= r.count
    ensures retryCount <= 2 ==> retryCount + r.count <= 3
    ensures retryCount >= 2 ==> r.count == 1
    ensures forall k :: retryCount <= k < retryCount + r.count - 1 ==> IsFetchError(outcome(k))
    ensures r.result == outcome(retryCount + r.count - 1)
    ensures IsFetchError(r.result) ==> retryCount + r.count - 1 >= 2
    decreases if retryCount < 2 then 2 - retryCount else 0
  {
    match outcome(retryCount)
    case Ok(text) => Attempts(Ok(text), 1)
    case Err(e) =>
      if retryCount < 2 && Contains(e, "fetch") then
        var rest := GenerateAIResponse(outcome, retryCount + 1);
        Attempts(rest.result, rest.count + 1)
      else Attempts(Err(e), 1)
  }

  /** An error that does not mention "fetch" is rethrown after the one attempt that raised it. */
  lemma OtherErrorsNotRetried(outcome: nat -> Result<string, string>)
    requires outcome(0).Err? && !Contains(outcome(0).error, "fetch")
    ensures GenerateAIResponse(outcome, 0) == Attempts(outcome(0), 1)
  {
  }

  /** Three fetch failures in a row exhaust the policy; the third error is rethrown. */
  lemma {:induction false} FetchFailuresExhaust(outcome: nat -> Result<string, string>)
    requires forall k :: k < 3 ==> IsFetchError(outcome(k))
    ensures GenerateAIResponse(outcome, 0) == Attempts(outcome(2), 3)
  {
    assert IsFetchError(outcome(0)) && IsFetchError(outcome(1)) && IsFetchError(outcome(2));
    assert GenerateAIResponse(outcome, 2) == Attempts(outcome(2), 1);
    assert GenerateAIResponse(outcome, 1) == Attempts(outcome(2), 2);
  }

  /**
    `enhancePrompt(request, retryCount)`: any error is retried once; a blank reply
    or a second failure gives back the original prompt. It never fails.
   */
  function EnhancePrompt(prompt: string, outcome: nat -> Result<string, string>, retryCount: nat): (r: Attempts<string>)
    ensures 1 <= r.count
    ensures retryCount <= 1 ==> retryCount + r.count <= 2
    ensures retryCount >= 1 ==> r.count == 1
    ensures forall k :: retryCount <= k < retryCount + r.count - 1 ==> outcome(k).Err?
    ensures var last := outcome(retryCount + r.count - 1);
      && (last.Ok? && Trim(last.value) != "" ==> r.result == Trim(last.value))
      && (last.Ok? && Trim(last.value) == "" ==> r.result == prompt)
      && (last.Err? ==> r.result == prompt && retryCount + r.count - 1 >= 1)
    decreases if retryCount < 1 then 1 - retryCount else 0
  {
    match outcome(retryCount)
    case Ok(text) => Attempts(if Trim(text) != "" then Trim(text) else prompt, 1)
    case Err(_) =>
      if retryCount < 1 then
        var rest := EnhancePrompt(prompt, outcome, retryCount + 1);
        Attempts(rest.result, rest.count + 1)
      else Attempts(prompt, 1)
  }

  /** The enhanced prompt is either the original prompt or a non-blank, trimmed reply. */
  lemma EnhanceResultIsPromptOrReply(prompt: string, outcome: nat -> Result<string, string>)
    ensures var r := EnhancePrompt(prompt, outcome, 0);
      r.count <= 2 &&
      (r.result == prompt ||
       (exists k :: k < 2 && outcome(k).Ok? && r.result == Trim(outcome(k).value) && r.result != ""))
  {
    var r := EnhancePrompt(prompt, outcome, 0);
    var last := r.count - 1;
    if outcome(last).Ok? && Trim(outcome(last).value) != "" {
      assert r.result == Trim(outcome(last).value);
    }
  }

  const EnhanceIntro := "You are a prompt enhancement assistant. Take the user's basic prompt and enhance it to be more specific, detailed, and effective for a coding AI assistant.\n\nOriginal prompt: \""
  const EnhanceRules := "\n\nEnhanced prompt should:\n- Be more specific and detailed\n- Include relevant technical context\n- Ask for specific examples or explanations\n- Be clear about expected output format\n- Maintain the original intent\n\nReturn only the enhanced prompt, nothing else."
  const NoContext := "No additional context"

  /**
    The prompt the enhancement call sends; `context` is the already serialised
    request context, if any. The user's prompt follows the fixed introduction
    directly, and the context (or the placeholder for none) appears in it.
   */
  function EnhancementPrompt(prompt: string, context: Option<string>): (r: string)
    ensures StartsWith(r, EnhanceIntro + prompt)
    ensures context.Some? ==> Contains(r, context.value)
    ensures context.None? ==> Contains(r, NoContext)
  {
    var shown := match context case Some(c) => c case None => NoContext;
    FramedPieces(EnhanceIntro + prompt, "\"\n\nContext: ", shown, EnhanceRules);
    EnhanceIntro + prompt + "\"\n\nContext: " + shown + EnhanceRules
  }

  /** In `a + b + c + d`, `a` is a prefix and `c` occurs. */
  lemma FramedPieces(a: string, b: string, c: string, d: string)
    ensures StartsWith(a + b + c + d, a)
    ensures Contains(a + b + c + d, c)
  {
    var r := a + b + c + d;
    assert r[..|a|] == a;
    assert r[|a + b|..|a + b| + |c|] == c;
    ContainsAt(r, c, |a + b|);
  }

  /** The try block of `enhancePrompt` for attempt number `attempt`: a missing key fails before any request, a reply is never blank. */
  function EnhanceAttempt(env: Env, net: (GeminiRequest, nat) -> HttpReply, prompt: string, context: Option<string>, attempt: nat): (r: Result<string, string>)
    ensures GetAIProvider(env).Err? ==> r == Err(GetAIProvider(env).error)
    ensures r.Ok? ==> r.value != ""
  {
    match GetAIProvider(env)
    case Err(e) => Err(e)
    case Ok(service) =>
      var request := service.provider.Request([ChatMessage(User, EnhancementPrompt(prompt, context))], EnhanceOptions);
      ReadReplyOf(service, net(request, attempt))
  }

  // ---------------------------------------------------------------------------
  // Error classification and the POST handler
  // ---------------------------------------------------------------------------

  datatype ErrorReply = ErrorReply(status: nat, message: string)

  const TimeoutMessage := "The AI model is taking longer than expected to respond. Please try again with a simpler request."
  const ConnectionMessage := "Unable to connect to the AI service. Please check your API key and internet connection."
  const UpstreamMessage := "The AI service returned an error. Please check your API key and try again."
  const ConfigurationMessage := "AI service configuration error. Please check your API key."
  const GenericMessage := "Failed to generate AI response"

  /**
    The first matching rule decides: "timeout" is 408, "fetch" or "ECONNREFUSED"
    is 503, "API error" is 502, "API key" is 401, anything else 500.
   */
  function ClassifyError(e: string): (r: ErrorReply)
    ensures r.status == 408 <==> Contains(e, "timeout")
    ensures r.status == 503 <==> !Contains(e, "timeout") && (Contains(e, "fetch") || Contains(e, "ECONNREFUSED"))
    ensures r.status == 502 <==>
      !Contains(e, "timeout") && !Contains(e, "fetch") && !Contains(e, "ECONNREFUSED") && Contains(e, "API error")
    ensures r.status == 401 <==>
      !Contains(e, "timeout") && !Contains(e, "fetch") && !Contains(e, "ECONNREFUSED") && !Contains(e, "API error")
      && Contains(e, "API key")
    ensures r.status == 500 <==>
      !Contains(e, "timeout") && !Contains(e, "fetch") && !Contains(e, "ECONNREFUSED") && !Contains(e, "API error")
      && !Contains(e, "API key")
  {
    if Contains(e, "timeout") then ErrorReply(408, TimeoutMessage)
    else if Contains(e, "fetch") || Contains(e, "ECONNREFUSED") then ErrorReply(503, ConnectionMessage)
    else if Contains(e, "API error") then ErrorReply(502, UpstreamMessage)
    else if Contains(e, "API key") then ErrorReply(401, ConfigurationMessage)
    else ErrorReply(500, GenericMessage)
  }

  /** A timeout wins over every other keyword, wherever they stand in the message. */
  lemma TimeoutWins(before: string, after: string)
    ensures ClassifyError(before + "timeout" + after) == ErrorReply(408, TimeoutMessage)
  {
    var e := before + "timeout" + after;
    assert e[|before|..|before| + 7] == "timeout";
    ContainsAt(e, "timeout", |before|);
  }

  /** Each status comes with its own fixed message; nothing outside the five statuses is produced. */
  lemma ClassifyStatuses(e: string)
    ensures ClassifyError(e).status in {408, 503, 502, 401, 500}
    ensures ClassifyError(e).message ==
      match ClassifyError(e).status
      case 408 => TimeoutMessage
      case 503 => ConnectionMessage
      case 502 => UpstreamMessage
      case 401 => ConfigurationMessage
      case _ => GenericMessage
  {
  }

  /** The regular chat body fields, and the fields of an enhancement request. */
  datatype ChatBody = ChatBody(
    action: Option<Json>,
    message: Option<Json>,
    history: Option<Json>,
    prompt: string,
    context: Option<string>)

  datatype ChatResponse =
    | Enhanced(enhancedPrompt: string)
    | Answer(response: string, provider: string)
    | BadRequest(error: string)
    | Failed(status: nat, error: string, details: string)

  const MessageRequired := "Message is required and must be a string"

  /** `message` is acceptable only as a non-empty string. */
  function ValidMessage(message: Option<Json>): (r: Option<string>)
    ensures r.Some? <==> message.Some? && message.value.Str? && message.value.s != ""
    ensures r.Some? ==> r.value == message.value.s
  {
    match message
    case Some(Str(s)) => if s != "" then Some(s) else None
    case _ => None
  }

  function FailWith(e: string): ChatResponse {
    var c := ClassifyError(e);
    Failed(c.status, c.message, e)
  }

  /** The response for the outcome of `generateAIResponse`: a blank reply is treated as an error. */
  function Respond(result: Result<string, string>, provider: string): (r: ChatResponse)
    ensures r.Answer? <==> result.Ok? && result.value != ""
    ensures r.Answer? ==> r.response == result.value && r.provider == provider
    ensures result.Ok? && result.value == "" ==> r == FailWith("Empty response from AI model")
    ensures result.Err? ==> r == FailWith(result.error)
    ensures r.Failed? ==> r.status in {408, 503, 502, 401, 500}
  {
    match result
    case Ok(text) =>
      if text != "" then Answer(text, provider)
      else ClassifyStatuses("Empty response from AI model"); FailWith("Empty response from AI model")
    case Err(e) => ClassifyStatuses(e); FailWith(e)
  }

  /** `POST /api/chat`. */
  function HandleChat(body: ChatBody, env: Env, net: (GeminiRequest, nat) -> HttpReply): (r: ChatResponse)
    ensures r.Enhanced? <==> body.action == Some(Str("enhance"))
    ensures r.BadRequest? <==> body.action != Some(Str("enhance")) && ValidMessage(body.message).None?
    ensures r.BadRequest? ==> r.error == MessageRequired
    ensures r.Answer? ==> r.response != "" && r.provider == ProviderName(env)
    ensures r.Failed? ==> r.status in {408, 503, 502, 401, 500}
  {
    if body.action == Some(Str("enhance")) then
      Enhanced(EnhancePrompt(body.prompt, (k: nat) => EnhanceAttempt(env, net, body.prompt, body.context, k), 0).result)
    else
      match ValidMessage(body.message)
      case None => BadRequest(MessageRequired)
      case Some(message) =>
        var messages := Conversation(body.history, message);
        Respond(GenerateAIResponse((k: nat) => ChatAttempt(env, net, messages, k), 0).result, ProviderName(env))
  }

  /** A chat request is refused with 400 exactly when its message is not a non-empty string; nothing else is looked at first. */
  lemma BadRequestExactly(body: ChatBody, env: Env, net: (GeminiRequest, nat) -> HttpReply)
    requires body.action != Some(Str("enhance"))
    ensures HandleChat(body, env, net).BadRequest? <==> !(body.message.Some? && body.message.value.Str? && body.message.value.s != "")
    ensures HandleChat(body, env, net).BadRequest? ==> HandleChat(body, env, net) == BadRequest(MessageRequired)
  {
  }

  /**
    An answer is never blank, never has surrounding whitespace and names the
    configured provider; a failure carries one of the five statuses.
   */
  lemma ChatResponseShape(body: ChatBody, env: Env, net: (GeminiRequest, nat) -> HttpReply)
    requires body.action != Some(Str("enhance"))
    ensures HandleChat(body, env, net).Answer? ==>
      var t := HandleChat(body, env, net).response; t != "" && Trim(t) == t
    ensures HandleChat(body, env, net).Answer? ==> HandleChat(body, env, net).provider == ProviderName(env)
    ensures HandleChat(body, env, net).Failed? ==> HandleChat(body, env, net).status in {408, 503, 502, 401, 500}
  {
    match ValidMessage(body.message)
    case None =>
    case Some(message) =>
      var messages := Conversation(body.history, message);
      var outcome := (k: nat) => ChatAttempt(env, net, messages, k);
      forall k: nat ensures outcome(k).Ok? ==> Trim(outcome(k).value) == outcome(k).value {
        assert outcome(k) == ChatAttempt(env, net, messages, k);
      }
      TrimmedReplies(outcome, ProviderName(env));
  }

  /** If every attempt's reply is already trimmed, so is the answer; failures carry one of the five statuses. */
  lemma TrimmedReplies(outcome: nat -> Result<string, string>, provider: string)
    requires forall k: nat :: outcome(k).Ok? ==> Trim(outcome(k).value) == outcome(k).value
    ensures var r := Respond(GenerateAIResponse(outcome, 0).result, provider);
      && (r.Answer? ==> r.response != "" && Trim(r.response) == r.response)
      && (r.Failed? ==> r.status in {408, 503, 502, 401, 500})
  {
    var attempts := GenerateAIResponse(outcome, 0);
    assert attempts.result == outcome(attempts.count - 1);
  }

  /** When every attempt fails with the same error, that error is what `generateAIResponse` ends with. */
  lemma SameErrorEveryAttempt(outcome: nat -> Result<string, string>, e: string)
    requires forall k: nat :: outcome(k) == Err(e)
    ensures GenerateAIResponse(outcome, 0).result == Err(e)
  {
  }

  /** Without a usable key every chat request fails before the network is used, with the key error as its details. */
  lemma MissingKeyFails(body: ChatBody, env: Env, net: (GeminiRequest, nat) -> HttpReply)
    requires body.action != Some(Str("enhance")) && ValidMessage(body.message).Some?
    requires env.aiApiKey.None? || env.aiApiKey.value == ""
    ensures HandleChat(body, env, net) == FailWith("API key required for " + ProviderName(env) + " provider")
  {
    var messages := Conversation(body.history, ValidMessage(body.message).value);
    var outcome := (k: nat) => ChatAttempt(env, net, messages, k);
    var e := "API key required for " + ProviderName(env) + " provider";
    assert GetAIProvider(env) == Err(e);
    forall k: nat ensures outcome(k) == Err(e) {
      assert outcome(k) == ChatAttempt(env, net, messages, k);
    }
    FailsWithEveryAttempt(outcome, e, ProviderName(env));
  }

  /** When every attempt fails with the same error, the response is that error classified. */
  lemma FailsWithEveryAttempt(outcome: nat -> Result<string, string>, e: string, provider: string)
    requires forall k: nat :: outcome(k) == Err(e)
    ensures Respond(GenerateAIResponse(outcome, 0).result, provider) == FailWith(e)
  {
    SameErrorEveryAttempt(outcome, e);
  }
}
