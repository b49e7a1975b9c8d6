# Portfolio website core, modelled in Dafny

This project models the logic of a personal portfolio site built with Next.js:

- **The AI reply service** (`src/lib/ai-service.ts`).
  - A provider list fixed at construction. At most one provider, DeepSeek, is registered, and only when its key is set.
  - The chat-completion request sent to a provider.
  - The response normaliser. It picks the completion text from five possible places in the JSON body.
  - A fallback loop. It tries each provider once, in order, and swallows every failure. When nothing usable came back, it answers with one of eight canned replies.
  - The fixed context summary.
- **The chat widget** (`src/components/AIChat.tsx`).
  - Rebuilding the transcript from stored interaction rows.
  - The state changes of sending a message.
  - The two error-to-text mappings.
- **The contact endpoint** (`src/app/api/contact/route.ts`).
  - The ordered checks: required fields, then email format, then mail configuration.
  - The outgoing mail.
  - The mapping of failures to HTTP responses.
- **The skills page** (`src/app/skills/page.tsx`).
  - Proficiency buckets with their labels and badge colours.
  - The eleven category sections.
  - The overview counts.

The modules follow those files:

| module | contents |
|---|---|
| `Wrappers` | `Option` and `Result`. |
| `JsStrings` | The JavaScript string behaviour the code relies on: the whitespace class shared by `trim()` and `\s`, `trim()`, `includes()`, if/else-if chains of substring tests, and decimal rendering in template literals. |
| `JsValues` | JSON values, truthiness, optional chaining, and the values a `catch` clause receives. |
| `AiService`, `AiChat`, `ContactRoute`, `SkillsPage` | One module per source file. |

The service and the chat widget change state step by step, so they are classes:

- `AiService.AIService` holds the provider list. `GetAIResponse` falls back to a canned reply around `TryProviders`, the loop over the list, which carries the invariants.
- `AiChat.ChatState` holds the message list, the input box and the loading flag. Its methods are proved against functions of the old state.

The contact handler and the skills page only compute values, so they are functions and lemmas.

Several inputs are parameters instead of effects:

- The network: `network[i]` is what the call to provider `i` produced.
- `Math.random`: `pick` is the index of the canned reply.
- `Date.now()`: the readings in a `SendClock`.
- The database and SendGrid: their answers and failures are inputs.
- The environment variables: the constructor's key and a `MailConfig`.

Some behaviour a reader might expect is absent from the code, and so from the model:

- There is no retry, backoff or HTTP-status classification. Each provider is called once, and every failure moves on to the next provider.
- The normaliser tries exactly five body shapes. An `error` object in the body gets no special treatment: it ends in `No content in API response` like any other body without content.
- The extracted text is returned as it is, not trimmed. A whitespace-only completion is accepted.
- Stored history is shown in the order the store returns it, with no reversal. The store query sorts newest first, so the newest interaction is shown at the top (`AiChat.NewestFirstStaysNewestFirst`).

## Model

| member | source | states |
|---|---|---|
| JsStrings.Trim | src/lib/ai-service.ts:176 | `trim()` strips leading and trailing whitespace only: the result is no longer than the input and starts and ends with a non-whitespace character |
| JsStrings.TrimEmptyIffBlank | src/components/AIChat.tsx:64 | `message.trim()` is empty exactly when every character of the message is whitespace |
| JsStrings.TrimAround | src/lib/ai-service.ts:162-176 | trimming a whitespace-padded text whose ends are not whitespace gives back exactly that text |
| JsStrings.DecimalRoundTrip | src/components/AIChat.tsx:67 | the decimal digits rendered into `user_${Date.now()}` read back as the clock reading |
| JsStrings.DecimalInjective | src/components/AIChat.tsx:67 | different clock readings give different message ids |
| AiService.SystemPrompt | src/lib/ai-service.ts:57-67 | the system instructions; `SystemPromptContext` states how the context line sits between the two fixed parts |
| AiService.SystemPromptContext | src/lib/ai-service.ts:57-67 | a missing or empty context leaves the fixed instructions unchanged; a non-empty one inserts exactly `Context: <context>` between the two fixed parts |
| AiService.BuildRequest | src/lib/ai-service.ts:72-93 | the request of one provider call; `RequestShape` states its URL, headers, model, messages and token limit |
| AiService.RequestShape | src/lib/ai-service.ts:72-93 | the request goes to `<baseUrl>/chat/completions` with the key as bearer token and the provider's model; it carries the system instructions and the untouched user message and asks for 500 tokens; the instructions mention the context exactly when it is non-empty |
| AiService.FirstTruthy | src/lib/ai-service.ts:107-128 | the first truthy entry of a priority list; none exactly when no entry is truthy |
| AiService.ExtractContent | src/lib/ai-service.ts:103-136 | a success is a truthy value; a failure is `No content in API response`, or the TypeError of reading `choices` of a `null` body |
| AiService.ExtractContentIsFirstTruthy | src/lib/ai-service.ts:107-136 | the if/else-if chain returns the first truthy of the five shapes in priority order; it fails with `No content in API response` exactly when none is truthy |
| AiService.ExtractContentExamples | src/lib/ai-service.ts:110-116 | the OpenAI shape and the `text` shape are read |
| AiService.ExtractContentFallThrough | src/lib/ai-service.ts:110-135 | an empty `message.content` falls through to `response`; an empty object has no content; a `null` body throws on reading `choices` |
| AiService.CallProvider | src/lib/ai-service.ts:95-142 | a rejected `fetch`, `text()` or `json()` propagates unchanged; a non-2xx status whose body text was read fails with `API call failed: <status> - <body>` before the body is parsed; a parsed 2xx body gives the first truthy of the five shapes, or fails with `No content in API response` when none is truthy; a `null` body fails with the TypeError of reading `choices` |
| AiService.CallProviderReadsFirstTruthyShape | src/lib/ai-service.ts:103-136 | a parsed 2xx body gives the first truthy of the five shapes, fails with `No content in API response` exactly when none is truthy, and a `null` body fails with the TypeError of reading `choices` |
| AiService.Accepted | src/lib/ai-service.ts:40-47 | the loop accepts an outcome exactly when the call returned a non-empty string, and then returns that string |
| AiService.FirstAccepted | src/lib/ai-service.ts:37-49 | the first provider whose outcome is accepted; every earlier one was rejected, and none means every provider was rejected |
| AiService.MockResponse | src/lib/ai-service.ts:145-158 | the reply is one of the eight canned replies and is not empty |
| AiService.ContextInfo | src/lib/ai-service.ts:161-177 | the summary is non-empty, so every request built with it carries a context line |
| AiService.ContextInfoIsTrimmedTemplate | src/lib/ai-service.ts:161-177 | the summary is exactly the template literal after `trim()` |
| AiService.AIService.constructor | src/lib/ai-service.ts:14-24 | an unset or empty key leaves the provider list empty; any other key registers DeepSeek once, with its URL and model |
| AiService.AIService.GetAIResponse | src/lib/ai-service.ts:26-54 | providers are tried in order, each at most once; the requests sent are each provider's request; the reply is the first accepted provider's reply, and no later provider is called; with no providers, or none accepted, the reply is the canned reply; the reply is never empty |
| AiService.AIService.TryProviders | src/lib/ai-service.ts:36-49 | the providers are called in list order; the answer is the first accepted provider's reply and no later provider is called; with none accepted every provider was called and there is no answer |
| AiService.UnconfiguredServiceUsesCannedReply | src/lib/ai-service.ts:30-34 | a service built without a key always answers with a canned reply and sends no request |
| AiChat.FormatHistory | src/components/AIChat.tsx:43-56 | the `flatMap` over the stored rows; `FormatHistoryLength`, `FormatHistoryAt` and `OffsetIncreasing` state its size, the messages at each row's offset and the row order |
| AiChat.FormatHistoryLength | src/components/AIChat.tsx:43-56 | the rebuilt list has one message per row plus one per row with a truthy response |
| AiChat.FormatHistoryAppend | src/components/AIChat.tsx:43-56 | rebuilding a concatenation concatenates the rebuilt parts |
| AiChat.FormatHistorySplit | src/components/AIChat.tsx:43-56 | a row's messages sit between those of the rows before it and those of the rows after it |
| AiChat.FormatHistoryAt | src/components/AIChat.tsx:43-56 | row `i` gives `user_<id>` at its offset; `assistant_<id>` follows immediately exactly when the response is truthy |
| AiChat.OffsetIncreasing | src/components/AIChat.tsx:43-56 | a later row's messages come after an earlier row's: row order is preserved |
| AiChat.NewestFirstStaysNewestFirst | src/components/AIChat.tsx:42-57 | rows returned newest first are shown newest first; an unanswered row gets no assistant message |
| AiChat.SendErrorText | src/components/AIChat.tsx:106-116 | the send-error chain; `SendErrorTextIsFirstMatch` states that it returns the first matching rule's text |
| AiChat.SendErrorTextIsFirstMatch | src/components/AIChat.tsx:106-116 | the send-error text is the first rule, in order, whose keywords occur (network, then API/response/status, then timeout, then rate limit); otherwise the generic text |
| AiChat.ApiErrorBeatsRateLimit | src/components/AIChat.tsx:108-116 | an `API call failed: 429` message gets the unavailable text, not the rate-limit text |
| AiChat.ServiceErrorText | src/components/AIChat.tsx:141-153 | the notice chain of the `catch`; `ServiceErrorTextIsFirstMatch` states that an `Error` gets the first matching notice and anything else the generic one |
| AiChat.ServiceErrorTextIsFirstMatch | src/components/AIChat.tsx:137-153 | an `Error` gets the first matching notice (Authentication failed, Rate limit, Network/fetch, Server error); any other thrown value gets the generic notice |
| AiChat.LocalAIResponse | src/components/AIChat.tsx:130-155 | the widget's `getAIResponse` passes the service's reply through unchanged; a failure becomes `ServiceErrorText` of the thrown value, one of the five notices |
| AiChat.GetAIResponse | src/components/AIChat.tsx:130-136 | the widget asks the service with the context summary: every request sent is that provider's request built with the summary as context; the reply is the first accepted provider's reply, or the canned reply when none is accepted, and is never empty |
| AiChat.WidgetRequestsCarryContext | src/components/AIChat.tsx:133-136 | every request the widget triggers carries the line `Context: <summary>` in its system instructions |
| AiChat.Exchange | src/components/AIChat.tsx:63-127 | the messages one send appends: the user message, then the reply, then an error message exactly when the save failed; the first two have different ids |
| AiChat.ChatState.constructor | src/components/AIChat.tsx:20-23 | an empty list, an empty input and no loading, for the given session |
| AiChat.ChatState.LoadChatHistory | src/components/AIChat.tsx:40-61 | a successful load replaces the list with the rebuilt history; a failed one leaves the state unchanged |
| AiChat.ChatState.BeginSend | src/components/AIChat.tsx:63-75 | a blank message changes nothing; otherwise the untrimmed message is appended as `user_<now>`, the input is cleared and loading is on |
| AiChat.ChatState.FinishSend | src/components/AIChat.tsx:79-127 | the reply is appended as `assistant_<now>`; a failed save appends an `error_<now>` message with the mapped text; loading is off in every case |
| AiChat.ChatState.SendMessage | src/components/AIChat.tsx:63-128 | a blank message changes nothing. Otherwise the list becomes the earlier messages followed by one exchange: the user message, the non-empty reply, and an error message exactly when the save failed. The reply comes from the first accepted provider, or is the canned reply. The interaction saved is (session, message, reply). The input is cleared and loading is off. |
| ContactRoute.EmailTest | src/app/api/contact/route.ts:17-18 | `emailRegex.test(email)`, computed; `EmailTestIsPattern` states that it accepts exactly the language of the pattern |
| ContactRoute.EmailTestIsPattern | src/app/api/contact/route.ts:17-18 | the executable email test accepts exactly the strings `^[^\s@]+@[^\s@]+\.[^\s@]+$` matches |
| ContactRoute.EmailTestMatches | src/app/api/contact/route.ts:17 | every string the test accepts matches the pattern |
| ContactRoute.MatchPassesEmailTest | src/app/api/contact/route.ts:17 | every string the pattern matches passes the test |
| ContactRoute.EmailAccepted | src/app/api/contact/route.ts:17-18 | the minimal address `a@b.c` passes |
| ContactRoute.EmailWithoutDotRejected | src/app/api/contact/route.ts:17-18 | a domain without a dot fails |
| ContactRoute.EmailWithoutLocalPartRejected | src/app/api/contact/route.ts:17-18 | an empty part before `@` fails |
| ContactRoute.EmailWithTwoAtsRejected | src/app/api/contact/route.ts:17-18 | a second `@` fails |
| ContactRoute.OutgoingMail | src/app/api/contact/route.ts:40-63 | the message handed to SendGrid; `Post` states its recipient, sender, subject and reply-to |
| ContactRoute.FailureResponse | src/app/api/contact/route.ts:73-95 | every caught failure is answered with status 500 and an error body |
| ContactRoute.FailureResponseIsFirstMatch | src/app/api/contact/route.ts:77-95 | an `Error` mentioning `Unauthorized` is an authentication failure; otherwise one mentioning `Forbidden` is access denied; everything else, including non-`Error` values, is `Failed to send email` |
| ContactRoute.Post | src/app/api/contact/route.ts:4-97 | the checks run in order: missing field 400, then bad email 400, then missing configuration 500. A mail goes out exactly when all pass. It goes to and from the configured address, with subject `Portfolio Contact: <subject>` and reply-to the submitter. Status 200 is returned exactly when the send did not throw. Every failure, including an unparsable body, goes through the failure mapping. |
| ContactRoute.MissingFieldWins | src/app/api/contact/route.ts:9-23 | a missing field is reported even when the email is also malformed |
| ContactRoute.FailureExamples | src/app/api/contact/route.ts:77-95 | `Unauthorized` wins over `Forbidden`; a non-`Error` value gets the generic text whatever it says |
| SkillsPage.CategoriesDistinct | src/app/skills/page.tsx:30 | there are eleven category headings, all different |
| SkillsPage.ProficiencyOf | src/app/skills/page.tsx:32-44 | a level's bucket is one up for each of the thresholds 3, 4 and 5 it reaches |
| SkillsPage.ProficiencyLabel | src/app/skills/page.tsx:39-44 | the label names the level's bucket |
| SkillsPage.ProficiencyColor | src/app/skills/page.tsx:32-37 | the colour is that of the level's bucket |
| SkillsPage.LabelAndColorAgree | src/app/skills/page.tsx:32-44 | two levels get the same label exactly when they get the same colour, and exactly when they share a bucket |
| SkillsPage.ProficiencyMonotone | src/app/skills/page.tsx:32-44 | a higher level never gets a lower bucket |
| SkillsPage.CategorySkills | src/app/skills/page.tsx:61 | a section holds exactly the skills whose category equals its heading |
| SkillsPage.CategorySkillsAppend | src/app/skills/page.tsx:61 | a section keeps input order: filtering a concatenation concatenates the filtered parts |
| SkillsPage.UnlistedInNoSection | src/app/skills/page.tsx:60-61 | a skill with a null or unlisted category appears in no section |
| SkillsPage.UnlistedSkills | src/app/skills/page.tsx:60-61 | exactly the skills with a null category or one outside the headings |
| SkillsPage.SectionsPartitionSkills | src/app/skills/page.tsx:60-61 | with distinct headings, the cards in all sections plus the unlisted skills make up all the skills |
| SkillsPage.PageSectionsPartitionSkills | src/app/skills/page.tsx:60-61 | on the page, every skill with one of the eleven categories is shown exactly once, and the others not at all |
| SkillsPage.AtLeast | src/app/skills/page.tsx:116 | exactly the skills at or above a threshold |
| SkillsPage.AtLeastAppend | src/app/skills/page.tsx:116-122 | the filter keeps input order and multiplicity: filtering a concatenation concatenates the filtered parts, so with the one-skill case it fixes the whole result and the panel counts |
| SkillsPage.AtLeastMonotone | src/app/skills/page.tsx:116-122 | a higher threshold never passes more skills |
| SkillsPage.Summarize | src/app/skills/page.tsx:114-136 | the Expert panel counts the skills at level 5 or more and the Advanced panel those at 4 or more; the category count is 11 whatever the data; the total is the number of skills; the experts are never more than the advanced, who are never more than the total |

## Left out

**Effects outside the code**

- HTTP, the database and SendGrid are not executed. `fetch`, `response.text()`, `response.json()`, `getChatHistory`, `saveChatInteraction`, `request.json()` and `sgMail.send` are represented by their outcomes, passed in as parameters.
- `sgMail.setApiKey` is not modelled. It only installs the configured key in the SendGrid client; the key enters the model only through `Configured`, and a failure to authenticate reaches the handler as what `sgMail.send` throws.
- Randomness is a parameter: the canned-reply index, and the random part of the chat session id.
- Clocks are parameters: `Date.now()` and `new Date()`.
- Logging (`console.log`, `console.error`) has no effect on results and is left out.

**Floating point**

- The request's `temperature` of 0.7 is not modelled.
- The proficiency bar width `(level / 5) * 100%` is not modelled.
- JSON numbers are reals, so there is no NaN and no IEEE rounding. Skill levels are reals with the same thresholds.

**Rendering and React**

- JSX, styling, scrolling, the open/close effect and the form handler are left out.
- The skills page's fetch effect (`getSkills`, the `Failed to load skills` error state and the loading flag) is left out. The model starts from the loaded list.
- The HTML body of the contact mail is left out. `Mail` carries the submitted name and message that it shows.

**Strings and values**

- Strings are sequences of Unicode code points, while JavaScript uses UTF-16 code units. A Dafny `char` is never a surrogate, so a JavaScript string holding an unpaired surrogate has no counterpart in the model. Valid JSON can carry one (`"\ud83d"` as `message.content`), and the code would return it as a truthy reply; such strings are not modelled. Among strings of well-formed characters, the difference only shows in `Index0` applied to a string, which `ExtractContent` reaches when `choices` holds a string. For a first character outside the Basic Multilingual Plane, JavaScript's `s[0]` is a lone surrogate while the model takes the whole code point. The results still agree, because every property the normaliser reads on a one-character string is `undefined` in both.
- ContactRoute.Post: the four fields are modelled as optional strings. A field holding a non-string JSON value (a number, a boolean, an object) is not modelled, nor is the email regex applied to one.
- AiService.Shapes: its own contract states only that there are five candidates. Their meaning is stated by `ExtractContentIsFirstTruthy` and `CallProvider`.

**Timing and concurrency**

- AiChat.ChatState.SendMessage: the state updates before and after the awaited calls run in sequence. React's batching, and another update interleaving at an `await` (for example a history load), are not modelled.
- AiChat.ChatState.SendMessage: each message uses one clock reading for both its id and its timestamp. The code reads the clock twice.
- AiChat.LocalAIResponse: the service never throws, so `AiChat.GetAIResponse` returns the service's reply and never reaches the `catch`. The `catch` and its notices are modelled on their own by `LocalAIResponse`.
- AiChat.ChatState.SendMessage: the `catch` of `sendMessage` can only be reached through the save, because the widget's `getAIResponse` never throws. The model therefore attaches the error message to a failed save.
