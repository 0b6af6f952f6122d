# AI routes of the code playground, modelled in Dafny

This project models the server side of the playground's two AI features, together with the thin provider layer both of them call.

- **Code suggestion (`POST /api/code-suggestion`).**
  - It checks its input.
  - It cuts a window of lines around the cursor.
  - It guesses the language and framework of the file.
  - It scans upwards for an enclosing function or class.
  - It classifies the text before the cursor.
  - It builds a prompt with a `|CURSOR|` marker spliced into the cursor line.
  - It cleans the model's reply: fence extraction, marker removal and trimming.
  - It falls back to a rule-based mock suggestion.
- **Chat (`POST /api/chat`).**
  - It sanitises the client's history and keeps only the last ten valid entries.
  - It puts the system prompt in front.
  - It retries failed requests under two different retry policies, one for chat and one for prompt enhancement.
  - It maps error texts to HTTP statuses, first match winning.
- **Provider layer (`lib/ai-providers.ts`).**
  - It converts role-tagged chat messages into the Gemini `contents` format.
  - It fills in default options.
  - It reads the reply text, with a fallback.
  - Its factory validates the provider name and the API key.

Modules:

- `Wrappers`: `Option` and `Result`.
- `JsonValues`: the JSON values the routes receive and read.
- `Strings`: the JavaScript string operations the code relies on, each restated with its own contract:
  - `includes`, `indexOf`, `trim`, `split`, `join`, `substring`, `slice`, `toLowerCase`;
  - a global `replace` of a literal pattern.
- `AIProviders`: messages, options, `GeminiProvider`, `AIProviderFactory`, `AIService`.
- `Environment`: the `AI_PROVIDER` / `AI_API_KEY` configuration and `getAIProvider`.
- `Chat`: `app/api/chat/route.ts`.
- `CodeSuggestion`: `app/api/code-suggestion/route.ts`.

Design decisions:

- **Environment and network as parameters.**
  - The process environment is a value of type `Environment.Env`.
  - The network is a function parameter from the Gemini request to an `HttpReply`.
  - The chat route may call the network several times, so its transport also receives the attempt number.
  - Each route is therefore a deterministic function of its body, its environment and its transport.
- **Values, not objects.** `GeminiProvider` and `AIService` are datatypes. Each sets its one private field in its constructor and never changes it afterwards, so nothing is lost by treating them as values.
- **In-place code stays imperative.** Three parts of the source change state step by step, and each is a method proved equal to a specification function:
  - the downward `for` loops of `detectInFunction`, `detectInClass` and `getLastNonEmptyLine`;
  - the `push`es of `detectIncompletePatterns`;
  - the step-by-step reassignment of `cleanedSuggestion`.
- **Message conversion.** Its `contents.unshift` is modelled the same way, by `AIProviders.ConvertMessages`.
- **Regular expressions.** Every pattern the routes use is small and anchored, so each is restated as a predicate on strings.
  - Example: `/\{\s*$/` becomes "the last non-whitespace character is `{`".
  - Example: `/^\s*}/` becomes "the line trimmed at the start begins with `}`".
  - `\s` and `trim` use the ECMAScript white-space and line-terminator set.
  - `\w` is `[A-Za-z0-9_]`.
  - The fence regex `` /```[\w]*\n?([\s\S]*?)```/ `` is modelled by its leftmost match:
    1. the first fence;
    2. the word characters after it;
    3. an optional newline;
    4. the text up to the next fence.
- **Retries.** They are recursion on `retryCount`, as in the source. The outcome of attempt `k` is a function `outcome(k)`, so the retry policy is stated independently of what each attempt does.
- **The project file tree.** The repository contains only type declarations and callback signatures for a project file tree, no operations; the tree is not part of this model.

## Model

| member | source | states |
|---|---|---|
| AIProviders.ResolveOptions | lib/ai-providers.ts:31 | each option is the caller's value when supplied; otherwise temperature 0.7, maxTokens 1000, model `gemini-1.5-flash` |
| AIProviders.OverrideTemperature | lib/ai-providers.ts:90 | `{ ...options, temperature: t }` resolves to temperature `t` and keeps the caller's maxTokens and model |
| AIProviders.NonSystem | lib/ai-providers.ts:35 | the filtered list is no longer than the input, and each kept message is a non-system message of the input |
| AIProviders.NonSystemAppend | lib/ai-providers.ts:35 | filtering distributes over concatenation, so order is preserved |
| AIProviders.NonSystemKeepsAll | lib/ai-providers.ts:35 | a list without system messages passes the filter unchanged |
| AIProviders.FirstSystem | lib/ai-providers.ts:42 | `find` returns a system message of the list, or nothing only when there is no system message |
| AIProviders.FirstSystemAppend | lib/ai-providers.ts:42 | the first system message of `a + b` is that of `a` when `a` has one, otherwise that of `b` |
| AIProviders.ToContents | lib/ai-providers.ts:36-39 | the map is element-wise: same length, turn `i` is message `i` converted |
| AIProviders.ToContentsAppend | lib/ai-providers.ts:36-39 | the conversion distributes over concatenation |
| AIProviders.GeminiContents | lib/ai-providers.ts:34-48 | the output length is the number of non-system messages plus one exactly when a system message exists |
| AIProviders.ContentRoles | lib/ai-providers.ts:37 | every output role is `user` or `model`; without a system message a turn is `model` exactly when its message was `assistant` |
| AIProviders.LaterSystemIgnored | lib/ai-providers.ts:42-48 | once a system message has occurred, inserting or removing a later system message does not change the output |
| AIProviders.NonSystemSkips | lib/ai-providers.ts:35 | a system message anywhere in the list is dropped by the filter |
| AIProviders.FirstSystemSkips | lib/ai-providers.ts:42 | messages after the first system message do not affect `find` |
| AIProviders.ContentsDetermined | lib/ai-providers.ts:34-48 | the output depends only on the filtered list and the first system message |
| AIProviders.SystemThenConversation | lib/ai-providers.ts:41-48 | a system message followed by non-system turns becomes one `"System: "`-prefixed user turn followed by the turns converted in order |
| AIProviders.ConvertMessages | lib/ai-providers.ts:34-48 | the filter, map and in-place `unshift` compute exactly `GeminiContents`, which is never longer than the input |
| AIProviders.NonSystemShorter | lib/ai-providers.ts:42-48 | when a system message exists the filtered list is strictly shorter, so the prepended turn still leaves the output no longer than the input |
| AIProviders.ExtractText | lib/ai-providers.ts:75 | for the value at `candidates[0].content.parts[0].text`: a non-empty string is returned; a missing or falsy value gives `"No response generated"`; a truthy non-string is an error, as is a `null` body; a success is never empty |
| AIProviders.ExtractFirstPart | lib/ai-providers.ts:75 | for any objects along the key chain, the reply is the text of the first part of the first candidate, whatever other keys, parts and candidates there are |
| AIProviders.ExtractFallbacks | lib/ai-providers.ts:75 | an empty `candidates` array, a body without one, a candidate without `content` or an empty `parts` array gives `"No response generated"` |
| AIProviders.GeminiProvider.Request | lib/ai-providers.ts:30-67 | the request carries the converted contents, the resolved temperature and token limit, and the URL built from the model and key |
| AIProviders.GeminiProvider.ReadReply | lib/ai-providers.ts:69-75 | a transport failure is passed on; a non-2xx status gives `Gemini API error: <status> - <body>`; a 2xx reply is `ExtractText` of its parsed body, or the parse error; a success is non-empty |
| AIProviders.GeminiProvider.GenerateResponse | lib/ai-providers.ts:30-76 | a successful response is never empty |
| AIProviders.GeminiProvider.CodeSuggestionMessages | lib/ai-providers.ts:79-88 | exactly two messages: the fixed code-completion system prompt, word for word, then the user prompt |
| AIProviders.GeminiProvider.GenerateCodeSuggestion | lib/ai-providers.ts:78-91 | a successful suggestion is never empty |
| AIProviders.CodeSuggestionRequestShape | lib/ai-providers.ts:78-91 | the request sends the prefixed system turn, then the prompt, at temperature 0.3 whatever the caller passed, and keeps the caller's token limit and model |
| AIProviders.CreateProvider | lib/ai-providers.ts:96-105 | succeeds exactly when the lowered name is `gemini` and the key is non-empty; otherwise the error is "Gemini API key is required" or "Unknown AI provider: <name>" |
| AIProviders.AvailableProviders | lib/ai-providers.ts:107-109 | the list has exactly one name, already lower-case, which the factory accepts with any non-empty key (so it is `["gemini"]`) |
| AIProviders.AvailableProvidersAccepted | lib/ai-providers.ts:107-109 | every listed provider name, in any case, is accepted by the factory with a key |
| AIProviders.CreateProviderIgnoresCase | lib/ai-providers.ts:97 | the factory's verdict does not depend on the case of the name |
| AIProviders.NewAIService | lib/ai-providers.ts:116-118 | the service is built exactly when the factory succeeds, wraps that provider, and otherwise fails with the factory's error |
| AIProviders.DefaultServiceIsGemini | lib/ai-providers.ts:116-118 | with the default name the service is a Gemini service exactly when a non-empty key is given |
| Environment.ProviderName | app/api/chat/route.ts:20 | an unset or empty `AI_PROVIDER` gives `gemini`; a set, non-empty one is used as given |
| Environment.GetAIProvider | app/api/chat/route.ts:19-28 | a missing or empty key fails with "API key required for <provider> provider"; otherwise the service for the configured provider is built with that key |
| Environment.DefaultEnvironmentGivesGemini | app/api/chat/route.ts:19-28 | with a key and no provider name, the route gets a Gemini service with that key |
| Chat.EntryMessage | app/api/chat/route.ts:128-136 | a valid history entry becomes a user or assistant message with its own content |
| Chat.FilterHistory | app/api/chat/route.ts:128-136 | the kept list is no longer than the input and never contains a system message |
| Chat.FilterHistorySingle | app/api/chat/route.ts:129-136 | one entry is kept exactly when it is an object with a string `role` in {user, assistant} and a string `content` |
| Chat.FilterHistoryAppend | app/api/chat/route.ts:129-136 | the filter distributes over concatenation, so the original order is kept |
| Chat.FilterHistoryKeepsValid | app/api/chat/route.ts:129-136 | if every entry is valid, all are kept, each converted in place |
| Chat.ValidHistory | app/api/chat/route.ts:128-137 | a history that is not an array gives the empty list; an array is filtered |
| Chat.RecentHistory | app/api/chat/route.ts:139 | `slice(-10)` is the suffix of length `min(10, n)` |
| Chat.ConversationShape | app/api/chat/route.ts:139-140 | the message list has 1 to 11 elements, ends with the new user message, starts with the last at most 10 valid entries and holds no system message |
| Chat.FullMessages | app/api/chat/route.ts:41 | the system prompt is element 0, followed by the messages unchanged |
| Chat.ChatRequestShape | app/api/chat/route.ts:41-50 | the provider receives the prefixed system prompt, the recent history converted, then the new message; at most 12 turns, temperature 0.7, 1000 tokens |
| Chat.PromptedContents | lib/ai-providers.ts:34-48 | system prompt, non-system turns and a closing user message convert to the prefixed system turn, the turns, then the message |
| Chat.ChatAttempt | app/api/chat/route.ts:43-53 | when no service can be built (missing key, unknown provider) every attempt fails with that error; a successful reply is already trimmed |
| Chat.GenerateAIResponse | app/api/chat/route.ts:30-66 | at most 3 attempts; every attempt but the last failed with a `fetch` error; the result is the last attempt's outcome; a `fetch` error is returned only after the third attempt |
| Chat.OtherErrorsNotRetried | app/api/chat/route.ts:58-64 | an error not mentioning `fetch` is rethrown after the first attempt |
| Chat.FetchFailuresExhaust | app/api/chat/route.ts:57-64 | three `fetch` failures in a row use exactly three attempts and return the third error |
| Chat.SameErrorEveryAttempt | app/api/chat/route.ts:58-64 | when every attempt fails with the same error, that error is the result |
| Chat.EnhancementPrompt | app/api/chat/route.ts:68-82 | the prompt starts with the fixed introduction followed by the user's prompt, and contains the serialised context or `No additional context` |
| Chat.FramedPieces | app/api/chat/route.ts:68-82 | in a four-piece concatenation the first piece is a prefix and the third occurs |
| Chat.EnhanceAttempt | app/api/chat/route.ts:84-96 | without a usable service the attempt fails with the service error before any request; a successful reply is never empty |
| Chat.EnhancePrompt | app/api/chat/route.ts:84-108 | at most 2 attempts, retrying on any error; a non-blank reply is returned trimmed; a blank reply or a second failure returns the original prompt; it never fails |
| Chat.EnhanceResultIsPromptOrReply | app/api/chat/route.ts:96-107 | the enhanced prompt is the original prompt or a non-empty trimmed reply of one of the two attempts |
| Chat.ClassifyError | app/api/chat/route.ts:158-173 | each status holds exactly when its substring test is the first to match: 408 timeout, 503 fetch/ECONNREFUSED, 502 API error, 401 API key, else 500 |
| Chat.TimeoutWins | app/api/chat/route.ts:161-163 | any error text containing `timeout` maps to 408, whatever else it contains |
| Chat.ClassifyStatuses | app/api/chat/route.ts:158-173 | the status is one of five, and each status comes with its own fixed message |
| Chat.ValidMessage | app/api/chat/route.ts:124-126 | a message is accepted exactly when it is a non-empty string |
| Chat.Respond | app/api/chat/route.ts:142-152 | a non-empty reply is answered with the configured provider; an empty one fails as "Empty response from AI model"; an error is classified |
| Chat.HandleChat | app/api/chat/route.ts:111-187 | the response is an enhancement exactly when `action` is `"enhance"`; otherwise it is the 400 `Message is required…` error exactly when the message is not a non-empty string; an answer is non-empty and names the configured provider; a failure carries one of the five statuses |
| Chat.BadRequestExactly | app/api/chat/route.ts:116-126 | a chat request is refused with 400 exactly when its message is not a non-empty string, before any history is read |
| Chat.ChatResponseShape | app/api/chat/route.ts:142-173 | an answer is non-empty, trimmed and names the configured provider; a failure carries one of the five statuses |
| Chat.TrimmedReplies | app/api/chat/route.ts:53 | when every attempt's reply is trimmed, a successful answer is non-empty and trimmed |
| Chat.FailsWithEveryAttempt | app/api/chat/route.ts:58-64 | when every attempt fails with one error, the response is that error classified |
| Chat.MissingKeyFails | app/api/chat/route.ts:19-66 | a valid message without an API key fails with the classified configuration error |
| CodeSuggestion.CurrentLineOf | app/api/code-suggestion/route.ts:96 | the cursor line, or `""` when the line number is out of range |
| CodeSuggestion.WindowShape | app/api/code-suggestion/route.ts:98-104 | before-context is lines `max(0,line-10) .. line-1` (at most 10); after-context is lines `line+1 ..` (at most 9, exactly 9 when the file is long enough) |
| CodeSuggestion.Extension | app/api/code-suggestion/route.ts:244 | the extension is the text after the last `.`, so it contains no `.` |
| CodeSuggestion.ExtensionAfterLastDot | app/api/code-suggestion/route.ts:244 | for `base.ext` with no `.` in `ext`, the extension is `ext` lower-cased; a name without `.` is its own extension, lower-cased |
| CodeSuggestion.ContentLanguage | app/api/code-suggestion/route.ts:259-264 | each language holds exactly when its substring test is the first to match: TypeScript, Python, Go, else JavaScript |
| CodeSuggestion.DetectLanguage | app/api/code-suggestion/route.ts:242-265 | a mapped extension decides; otherwise the content checks do |
| CodeSuggestion.ExtensionWins | app/api/code-suggestion/route.ts:243-256 | a file name ending in a mapped extension, in any case, gets that language whatever the content |
| CodeSuggestion.ExtensionIgnoresCase | app/api/code-suggestion/route.ts:244 | lowering the file name does not change its extension |
| CodeSuggestion.DetectLanguageIgnoresCase | app/api/code-suggestion/route.ts:244-256 | the detected language does not depend on the case of the file name |
| CodeSuggestion.DetectLanguageNames | app/api/code-suggestion/route.ts:242-265 | the language is one of the seven names the route knows |
| CodeSuggestion.DetectFramework | app/api/code-suggestion/route.ts:267-274 | each framework holds exactly when its test is the first to match: React, Vue, Angular, Next.js, else None |
| CodeSuggestion.ReactWins | app/api/code-suggestion/route.ts:268 | any content using `useState` is React, whatever other markers it has |
| CodeSuggestion.DetectFrameworkNames | app/api/code-suggestion/route.ts:267-274 | the framework is one of five names |
| CodeSuggestion.DetectInFunction | app/api/code-suggestion/route.ts:276-283 | the downward scan returns true exactly when some earlier line starts a function and no line between it and the cursor starts with `}` |
| CodeSuggestion.ScanUp | app/api/code-suggestion/route.ts:277-281 | the loop with early return and `break` decides "an opening line above, not closed before the cursor" |
| CodeSuggestion.DetectInClass | app/api/code-suggestion/route.ts:285-291 | true exactly when some earlier line starts with `class` or `interface` followed by white space |
| CodeSuggestion.NothingAboveFirstLine | app/api/code-suggestion/route.ts:276-291 | both scans are false on line 0 |
| CodeSuggestion.CloseAboveCursor | app/api/code-suggestion/route.ts:280 | a `}` line just above the cursor means not in a function |
| CodeSuggestion.CloseIsNoStart | app/api/code-suggestion/route.ts:279-280 | a line starting with `}` starts neither a function nor a class |
| CodeSuggestion.GetLastNonEmptyLine | app/api/code-suggestion/route.ts:312-318 | returns the nearest line above the cursor that is not blank, or `""` when every line above is blank |
| CodeSuggestion.AfterComment | app/api/code-suggestion/route.ts:293-296 | true only when the text before the clamped column contains `//` or `#` |
| CodeSuggestion.CommentDetected | app/api/code-suggestion/route.ts:293-296 | text before the cursor holding `//` followed by the rest of the line counts as after a comment |
| CodeSuggestion.Rank | app/api/code-suggestion/route.ts:302-307 | every pattern has its position in the fixed order |
| CodeSuggestion.KeepMembers | app/api/code-suggestion/route.ts:302-307 | a pattern is kept exactly when it is listed and its test holds |
| CodeSuggestion.KeepSorted | app/api/code-suggestion/route.ts:302-307 | keeping a subsequence of an ordered list leaves it ordered |
| CodeSuggestion.PatternOrderSorted | app/api/code-suggestion/route.ts:302-307 | the six tests run in strictly increasing order, so there are no duplicates |
| CodeSuggestion.KeepOrderShape | app/api/code-suggestion/route.ts:300-309 | the pushed list holds exactly the patterns whose test holds, in the fixed order |
| CodeSuggestion.KeepSnoc | app/api/code-suggestion/route.ts:300-309 | one more test appends its pattern exactly when the test holds |
| CodeSuggestion.IncompletePatternsShape | app/api/code-suggestion/route.ts:298-310 | the list is a duplicate-free subsequence of [conditional, function, object, array, assignment, method-call] holding exactly the matching patterns |
| CodeSuggestion.DetectIncompletePatterns | app/api/code-suggestion/route.ts:298-310 | the method's pushes compute the pattern list of the text before the cursor |
| CodeSuggestion.PushMatching | app/api/code-suggestion/route.ts:300-309 | the sequence of conditional pushes yields exactly the matching patterns in order |
| CodeSuggestion.TailPatternIsLastNonSpace | app/api/code-suggestion/route.ts:304-307 | "`c` then only white space up to the end" is "the last non-white-space character is `c`" |
| CodeSuggestion.FunctionPatternIsKeyword | app/api/code-suggestion/route.ts:303 | the function pattern holds exactly when the trimmed text is `function` or `def` |
| CodeSuggestion.BlankEndsInSpace | app/api/code-suggestion/route.ts:302-307 | non-empty trailing blank text ends in a white-space character |
| CodeSuggestion.CursorChecksIgnoreRest | app/api/code-suggestion/route.ts:294-299 | the comment and pattern checks depend only on the line before the cursor |
| CodeSuggestion.AnalyzeCodeContext | app/api/code-suggestion/route.ts:94-128 | every field of the context, including `isAfterComment`, is its detector applied to the split lines and the text before the cursor |
| CodeSuggestion.CursorLineRestores | app/api/code-suggestion/route.ts:141 | the marker sits at the clamped column, and deleting that one occurrence gives back the current line |
| CodeSuggestion.CursorLineKeepsAbsent | app/api/code-suggestion/route.ts:141 | splicing in the marker adds no character outside the marker |
| CodeSuggestion.PatternList | app/api/code-suggestion/route.ts:148 | the list prints as `None` exactly when it is empty |
| CodeSuggestion.JoinNonEmpty | app/api/code-suggestion/route.ts:148 | a non-empty list of pattern names never joins to `None` |
| CodeSuggestion.BuildPrompt | app/api/code-suggestion/route.ts:133-157 | the prompt starts with the head (introduction, language, framework, context above), a newline, the current line up to the clamped column, then the cursor marker |
| CodeSuggestion.PromptUpToMarker | app/api/code-suggestion/route.ts:133-157 | whatever head and tail surround it, the cursor line contributes the text before the cursor and then the marker |
| CodeSuggestion.PromptLines | app/api/code-suggestion/route.ts:133-156 | the prompt's lines are the head's lines, the cursor line with its marker, then the tail's lines |
| CodeSuggestion.SplitAround | app/api/code-suggestion/route.ts:133-156 | a line without a newline stays one piece when the prompt is split into lines |
| CodeSuggestion.FirstContaining | app/api/code-suggestion/route.ts:195 | `find` returns a line containing the marker, or nothing only when no line does |
| CodeSuggestion.FirstMarkerLine | app/api/code-suggestion/route.ts:195 | `find` picks the first marked line |
| CodeSuggestion.BeforeFirst | app/api/code-suggestion/route.ts:201 | `split(marker)[0]` is the prefix up to the first occurrence of the marker |
| CodeSuggestion.BeforeFirstMarker | app/api/code-suggestion/route.ts:201 | for a line with one marker, the part before it is the text before the cursor |
| CodeSuggestion.MockFromBefore | app/api/code-suggestion/route.ts:204-238 | the first test the trimmed text before the cursor passes decides: ending in `if (` gives the condition reply, then `=` the value reply, `.` the method reply, `{` the block reply, `[` the item reply, anything else the default reply; the reply is one of the eight fixed texts |
| CodeSuggestion.MockNeverNamesFunctionOrVariable | app/api/code-suggestion/route.ts:209-219 | the `function `, `const ` and `let ` branches never fire, because a trimmed string never ends in a space |
| CodeSuggestion.TrimmedNotEndingInSpace | app/api/code-suggestion/route.ts:209-219 | a trimmed string never ends with a suffix whose last character is white space |
| CodeSuggestion.MockSuggestion | app/api/code-suggestion/route.ts:192-239 | without a marked line the reply is the "unavailable" text; otherwise it is decided by the text before the first marker; it is never empty |
| CodeSuggestion.MockOfMarkedPrompt | app/api/code-suggestion/route.ts:192-201 | for a prompt whose first marked line is the cursor line, the mock reads exactly the text before the marker |
| CodeSuggestion.MockOfPrompt | app/api/code-suggestion/route.ts:133-141 | when the prompt's head and the current line hold no `\|`, the mock of the prompt reads the current line before the clamped column |
| CodeSuggestion.MockReadsCursorPrefix | app/api/code-suggestion/route.ts:133-141 | for any file and suggestion type without `\|`, the mock of the built prompt depends only on the current line before the cursor |
| CodeSuggestion.NoBarInContext | app/api/code-suggestion/route.ts:94-128 | a file without `\|` gives context strings without `\|` |
| CodeSuggestion.NoBarInHead | app/api/code-suggestion/route.ts:134-140 | the part of the prompt above the cursor line contains no `\|` |
| CodeSuggestion.FencedBody | app/api/code-suggestion/route.ts:173 | a match needs a fence in the reply, and its body contains no fence |
| CodeSuggestion.FencedRoundTrip | app/api/code-suggestion/route.ts:172-174 | a block `` ```lang\n body ``` `` after fence-free text gives back its body, whatever its language word |
| CodeSuggestion.FencedAt | app/api/code-suggestion/route.ts:173 | the match is decided by the first fence, the word after it, the newline and the next fence |
| CodeSuggestion.CleanSuggestion | app/api/code-suggestion/route.ts:170-180 | the step-by-step reassignments compute "trimmed first fenced body, markers removed, trimmed, else the mock" |
| CodeSuggestion.CleanedOrMockShape | app/api/code-suggestion/route.ts:171-180 | the cleaned suggestion is never empty, and is either trimmed or the mock reply |
| CodeSuggestion.PlainReplyKept | app/api/code-suggestion/route.ts:171-180 | a reply without fences or markers is returned trimmed |
| CodeSuggestion.FencedReplyKept | app/api/code-suggestion/route.ts:172-180 | a reply holding one fenced block whose body has no marker characters yields that body trimmed |
| CodeSuggestion.UnfencedBlock | app/api/code-suggestion/route.ts:172-175 | the fence step of such a reply leaves the trimmed body |
| CodeSuggestion.CleanTextKept | app/api/code-suggestion/route.ts:178 | trimmed text without `\|` survives marker removal and trimming |
| CodeSuggestion.TrimInside | app/api/code-suggestion/route.ts:174 | trimming adds no character |
| CodeSuggestion.MarkerRemovalSinglePass | app/api/code-suggestion/route.ts:178 | removal is one left-to-right pass: `\|CUR\|CURSOR\|SOR\|` leaves one `\|CURSOR\|` |
| CodeSuggestion.SuggestionFor | app/api/code-suggestion/route.ts:162-187 | the suggestion is never empty; without a usable service it is the mock; otherwise it is trimmed or the mock |
| CodeSuggestion.GenerateSuggestion | app/api/code-suggestion/route.ts:162-187 | a caught error and an empty clean-up both end in the mock, so the suggestion is never empty |
| CodeSuggestion.MissingKeyUsesMock | app/api/code-suggestion/route.ts:181-186 | without a usable key the suggestion is the mock |
| CodeSuggestion.ValidInput | app/api/code-suggestion/route.ts:51 | the input is refused exactly when the content is empty, a cursor coordinate is negative or the suggestion type is empty |
| CodeSuggestion.HandleCodeSuggestion | app/api/code-suggestion/route.ts:45-76 | invalid input exactly when the content or suggestion type is empty or a cursor coordinate is negative; otherwise the context, the suggestion from its prompt, and the configured provider |
| Strings.IndexOf | app/api/code-suggestion/route.ts:173 | the first occurrence at or after the start, or none at all |
| Strings.Trim | app/api/chat/route.ts:53 | the result neither starts nor ends with white space |
| Strings.TrimStartRemovesWhitespace | app/api/chat/route.ts:53 | only white space is cut at the start |
| Strings.TrimEndRemovesWhitespace | app/api/chat/route.ts:53 | only white space is cut at the end |
| Strings.TrimRemovesWhitespace | app/api/chat/route.ts:53 | the trimmed text is a middle stretch of the input, and everything cut on either side is white space |
| Strings.TrimIdempotent | app/api/chat/route.ts:96 | trimming twice is trimming once |
| Strings.Split | app/api/code-suggestion/route.ts:95 | at least one piece, none containing the separator |
| Strings.SplitJoin | app/api/code-suggestion/route.ts:95 | joining the pieces with the separator gives back the text |
| Strings.SplitAppend | app/api/code-suggestion/route.ts:95 | splitting at a separator between two texts concatenates their pieces |
| Strings.SplitToLower | app/api/code-suggestion/route.ts:244 | lowering commutes with splitting at `.` |
| Strings.TakeDropClamped | app/api/code-suggestion/route.ts:141 | `substring(0, c)` and `substring(c)` rejoin to the line, and the first has length `min(c, len)` |
| Strings.Slice | app/api/code-suggestion/route.ts:103-104 | `slice` with clamped bounds: its length and its elements |
| Strings.RemoveAll | app/api/code-suggestion/route.ts:178 | removal never lengthens the text |
| Strings.RemoveAllKeepsPrefix | app/api/code-suggestion/route.ts:178 | text with no occurrence starting in it is kept in front |
| Strings.RemoveAllWithoutOccurrence | app/api/code-suggestion/route.ts:178 | text without the pattern is unchanged |
| Strings.ToLower | app/api/code-suggestion/route.ts:244 | character-wise lowering of ASCII letters, length kept |
| Strings.ToLowerIdempotent | app/api/code-suggestion/route.ts:244 | lowering twice is lowering once |
| Strings.NatToString | lib/ai-providers.ts:71 | the status prints as a non-empty run of decimal digits without a leading zero, and those digits denote the status |
| JsonValues.Member | lib/ai-providers.ts:75 | `?.key` yields a value only for an object that has that key, and then it is that key's value |
| JsonValues.Element | lib/ai-providers.ts:75 | `?.[i]` on an array with an element `i` yields that element |

## Left out

- The HTTP call itself (`fetch`, `response.ok`, `text()`, `json()`) is a transport parameter. `NextRequest`/`NextResponse` plumbing, status codes on the wire and the JSON encoding of responses are not modelled; the responses are datatypes.
- `console.log`/`console.error`, the `setTimeout` back-off waits and the `new Date().toISOString()` timestamps are left out: side effects, wall-clock time and the clock. Only the number of attempts is modelled.
- `process.env` is the `Env` value; the routes read it each time, which the model does not distinguish.
- `JSON.stringify(request.context, null, 2)` in the enhancement prompt is a foreign serialiser: the context is passed already serialised as an optional string.
- `await req.json()` failing on a malformed body, and the code-suggestion `catch` returning 500 with the message, stack and environment, are left out. The model receives an already-parsed body whose fields have the declared types; the stack text is runtime information.
- The code-suggestion input check models `fileContent`, `suggestionType` and `fileName` as strings and the cursor as integers. Non-numeric or fractional cursor values are not modelled.
- The chat body's `prompt` for enhancement is a string. A non-string `prompt` is not modelled.
- The chat error reply's fixed `suggestions` list, the code-suggestion `metadata` block (which repeats fields of the context), and the chat `GET` status handler are constant output and are left out.
- `afterCursor` in `generateMockSuggestion` (app/api/code-suggestion/route.ts:202) is computed but never used, so it is not modelled.
- `AIOptions.stream` is carried but, as in the source, never read; `topP` 0.9 and `topK` 40 are fixed. No streaming is modelled.
- Strings are sequences of characters. UTF-16 surrogate pairs and locale rules are not modelled: `toLowerCase` is modelled for ASCII letters only, so a file name with non-ASCII upper-case letters in its extension is not covered.
- `extMap[ext]` also finds inherited object keys such as `constructor`; the model's map has only the nine listed extensions.
- Strings.RemoveAll: it models `replace(/\|CURSOR\|/g, "")` for a literal, non-empty pattern only, which is the one use in the code.
- CodeSuggestion.GetLastNonEmptyLine: it requires `currentLine <= |lines|`, because the source calls `.trim()` on `lines[i]` without a guard and would throw for a line past the end. The function is never called by the routes.
- AIProviders.ExtractText: when the reply text is a truthy non-string, its error text is the one the chat route's `trim` call would raise. In the code-suggestion route any error ends in the mock, so the text does not matter there.
- The playground's file tree, editor, dashboard, settings and persistence code are not part of this model.
