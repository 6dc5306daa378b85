# Lumora-ai chat core, modelled in Dafny

Lumora-ai is a browser chat that sends a student's question to a hosted
language model. The model runs under one of four teaching modes:
`reflection`, `answer`, `leetcode` and `learning-plan`. The chat shows the
model's answer together with up to three follow-up questions. This project
models the parts of it that are ordinary sequential logic:

- **Modes** (`modes.dfy`, module `ChatModes`). The chat page reads the `mode`
  and `question` query parameters. A mode outside the four becomes
  `reflection`, and a missing question becomes `""`.
- **The AI service** (`aiservice.dfy`, module `AiService`):
  - the system prompt for each mode;
  - the user prompt built from the last two earlier exchanges;
  - the two model calls, which make up `processQuestion`;
  - the shaping and the static fallbacks of the follow-up questions.

  The hosted model is passed in as two function parameters. The follow-up
  parameter also covers `JSON.parse`, and its result is one of three outcomes:
  a parsed array, another parsed value, or a throw. `ProcessQuestion` also
  returns the list of model calls it made, with the prompts each call was sent.
- **The request handler** (`route.dfy`, module `ChatRoute`). `POST /api/chat`
  checks, in order:
  1. a body with no question or no mode gives 400;
  2. a missing credential gives 500;
  3. otherwise the request goes to the service, and a failure there becomes
     500 with the error's details.

  The credential is a boolean parameter, and the service is a function
  parameter. The handler returns the request it passed to the service, or
  `None` when it never called the service.
- **The chat view's state** (`chatview.dfy`, module `ChatView`). The class
  `ChatInterface` holds the message list, the input field and the busy flag.
  `Submit` is the form handler. `ProcessQuestion` covers `processQuestion` up
  to its `await fetch`, and `Complete` covers the rest.
  `ConversationHistory` derives the history from the list, one question and
  answer per pair. `SelectFollowUp` is the follow-up click and `EditInput` is
  the text field. The class invariant `Valid` says that a loading placeholder
  exists exactly while a request is in flight, and that it is then the last
  message, right after the question.
- **JavaScript helpers** (`jstext.dfy`, `jslookup.dfy`):
  - `String.prototype.trim`, using the ECMAScript white-space and
    line-terminator characters;
  - the decimal form of a status code;
  - property lookup on an object literal, which also finds members inherited
    from `Object.prototype`.

Two consequences of the code that the model makes explicit:

- The `AIRequest` type lists four modes (lib/ai-service.ts:11). The handler
  checks only that the mode is non-empty (app/api/chat/route.ts:8), so any
  non-empty mode reaches the service (`ChatRoute.AnyTruthyModeDelegated`).
- A failure is stored as an `ai` message (components/chat-interface.tsx:150-153).
  So a later history pairs the question with the error text
  (`ChatView.HistoryAfterExchange`).

## Model

| member | source | states |
|---|---|---|
| ChatModes.NormalizeMode | components/chat-client.tsx:7-16 | the mode is always one of the four; a listed raw mode is kept unchanged; a missing or unlisted one becomes `reflection` |
| ChatModes.QuestionParam | components/chat-client.tsx:18 | a missing question parameter becomes `""`; a present one is kept unchanged |
| ChatModes.ChatClient | components/chat-client.tsx:10-21 | the chat view gets the raw mode when it is one of the four, and `reflection` when it is missing or unlisted; it gets the raw question when present, and `""` when missing |
| ChatModes.NormalizeIdempotent | components/chat-client.tsx:14-16 | normalising an already normalised mode changes nothing |
| JsText.TrimStart | components/chat-interface.tsx:164 | the result is a suffix of the input; everything dropped is whitespace; the result does not start with whitespace |
| JsText.TrimEnd | components/chat-interface.tsx:164 | the result is a prefix of the input; everything dropped is whitespace; the result does not end with whitespace |
| JsText.Trim | components/chat-interface.tsx:164-166 | the trimmed input is no longer than the input; a non-empty result neither starts nor ends with whitespace |
| JsText.TrimEmptyIff | components/chat-interface.tsx:164 | the trimmed input is empty exactly when the input is all whitespace, which is when submitting does nothing |
| JsText.TrimIsSubstring | components/chat-interface.tsx:166 | the question sent is the input's own text between its leading and trailing whitespace |
| JsText.TrimIdempotent | components/chat-interface.tsx:166 | trimming a trimmed question changes nothing |
| JsText.NatToString | components/chat-interface.tsx:129 | a status renders as a non-empty string of decimal digits, without a leading zero, whose value, read by `DecimalValue`, is the status itself |
| JsText.NatToStringInjective | components/chat-interface.tsx:129 | two different statuses never render to the same text |
| AiService.SystemPrompt | lib/ai-service.ts:21-32 | each of the four modes gets its own prompt; any other mode gets the answer prompt; the prompt is never empty |
| AiService.SystemPromptsDistinct | lib/ai-service.ts:22-30 | the table has exactly the four modes as keys, and their four prompts are non-empty and pairwise different |
| AiService.UnknownModeGetsAnswerPrompt | lib/ai-service.ts:31 | a mode outside the four gets exactly the prompt of `answer` |
| AiService.SystemPromptAsWritten | lib/ai-service.ts:31 | the lookup as JavaScript evaluates it gives an own prompt or an inherited `Object.prototype` member, never nothing |
| AiService.SystemPromptAsWrittenAgrees | lib/ai-service.ts:21-31 | for every mode that is not an `Object.prototype` name, the code as written returns the same prompt as the corrected lookup |
| AiService.SystemPromptAsWrittenOnConstructor | lib/ai-service.ts:31 | for the mode `constructor` the code as written returns an inherited function, where a prompt string is intended |
| AiService.LastExchanges | lib/ai-service.ts:40-41 | `slice(-2)` keeps the last `min(2, n)` exchanges, as a suffix and in their original order |
| AiService.Join | lib/ai-service.ts:43 | joining no parts gives `""`; joining one part gives that part; joining two parts puts the separator between them |
| AiService.JoinAppend | lib/ai-service.ts:43 | joining one more part appends the separator and that part to the earlier result |
| AiService.EffectivePrompt | lib/ai-service.ts:38-45 | with or without a history, the prompt ends with the current question |
| AiService.PromptWithoutHistory | lib/ai-service.ts:38-39 | an absent or empty history gives the raw question as the prompt |
| AiService.PromptWithOneExchange | lib/ai-service.ts:39-44 | one earlier exchange is rendered on its own (`Render`, joined by `Context`), giving `Previous conversation:\nHuman: q\nAI: a\n\nCurrent question: <question>` |
| AiService.ContextOfTwoOrMore | lib/ai-service.ts:40-43 | with two or more exchanges, `Context` is the last two `Human:`/`AI:` blocks joined by a blank line |
| AiService.PromptKeepsLastTwo | lib/ai-service.ts:40-44 | with two or more exchanges, the prompt shows exactly the last two, the older one first, each as `Human: q\nAI: a`, wrapped before `Current question:` |
| AiService.PromptIgnoresOlderExchanges | lib/ai-service.ts:40-41 | exchanges older than the last two do not change the prompt |
| AiService.DefaultFollowUps | lib/ai-service.ts:78-100 | every mode gets three default questions: its own list, or the `answer` list when it has none |
| AiService.DefaultFollowUpsAsWritten | lib/ai-service.ts:100 | the lookup as JavaScript evaluates it gives an own list or an inherited `Object.prototype` member |
| AiService.DefaultFollowUpsAsWrittenAgrees | lib/ai-service.ts:78-100 | for every mode that is not an `Object.prototype` name, the code as written returns the same list as the corrected lookup |
| AiService.DefaultFollowUpsAsWrittenOnToString | lib/ai-service.ts:100 | for the mode `toString` the code as written returns an inherited function, where a list is intended |
| AiService.ShapeFollowUps | lib/ai-service.ts:75-100 | at most three follow-ups; a parsed array gives its first `min(3, n)` items in order; another parsed value gives `[]`; a throw gives the mode's default list |
| AiService.GenerateFollowUpQuestions | lib/ai-service.ts:66-102 | the follow-up step sends the instruction `FollowUpPrompt` (line 70: the mode and the raw question in the fixed template); it always yields a list of at most three questions and never fails |
| AiService.ProcessQuestion | lib/ai-service.ts:34-64 | the result equals `ProcessQuestionSpec` and the calls equal `ModelCallsSpec`, the two functions that state what follows: the answer call gets the mode's system prompt and the context prompt; the follow-up call gets the raw question and happens only after a successful answer; the result is the answer text with the shaped follow-ups, or the error `AI processing failed: <message>` |
| AiService.ProcessQuestionOutcome | lib/ai-service.ts:47-63 | the service fails exactly when the answer call fails, with the prefixed message; on success the answer is the model's text, with at most three follow-ups |
| AiService.FollowUpFailureIsolated | lib/ai-service.ts:55-60 | the follow-up model's behaviour never changes whether the request succeeds, nor the answer it carries |
| AiService.BinarySearchTreeScenario | lib/ai-service.ts:34-60 | "What is a binary search tree?" in `answer` mode with no history is sent unchanged under the answer prompt; if its follow-up step fails, the answer defaults are returned |
| ChatRoute.Post | app/api/chat/route.ts:4-26 | a malformed body gives 500 with details; a question or mode that is not `Truthy` (absent or `""`, the `!question \|\| !mode` test of line 8) gives 400 `Missing question or mode`; a missing credential gives 500 `GROQ_API_KEY not configured` without calling the service; otherwise the service is called once with the body's fields and its response is returned as is, or 500 `AI processing failed` with the thrown message |
| ChatRoute.PostResponseShape | app/api/chat/route.ts:4-26 | the status is always 200, 400 or 500; 200 comes exactly with an answer body; the service is called exactly when the fields are present and the credential is set |
| ChatRoute.ValidationPrecedesCredential | app/api/chat/route.ts:8-14 | missing fields give 400 whether or not the credential is set |
| ChatRoute.AnyTruthyModeDelegated | app/api/chat/route.ts:8 | the mode is not checked against the four names, so any non-empty mode reaches the service |
| ChatRoute.PostWithAiService | app/api/chat/route.ts:12-25 | with the real service behind it: without a credential no model is called; a failed answer call gives 500 with details `AI processing failed: <message>`; a successful one gives 200 with at most three follow-ups |
| ChatView.WithoutLoading | components/chat-interface.tsx:134 | the filtered list contains no loading message and is no longer than the original |
| ChatView.WithoutLoadingMembers | components/chat-interface.tsx:134 | a message is kept exactly when it was in the list and is not a loading placeholder |
| ChatView.WithoutLoadingAppend | components/chat-interface.tsx:134 | filtering distributes over concatenation, so the kept messages keep their relative order |
| ChatView.WithoutLoadingDropsPlaceholder | components/chat-interface.tsx:133-135 | when the only placeholder is the last message, filtering simply removes it |
| ChatView.PairsStep | components/chat-interface.tsx:111-118 | one step of the scan takes the exchange at the current position, if there is one, and goes on from the next position |
| ChatView.ConversationHistory | components/chat-interface.tsx:108-121 | the loop over the filtered list produces exactly `History`, which is `Pairs` of `WithoutLoading`: one exchange per user message that is directly followed by an `ai` message, in order |
| ChatView.HistoryBound | components/chat-interface.tsx:108-121 | the history has no more exchanges than there are user messages |
| ChatView.PairsBound | components/chat-interface.tsx:110-120 | over the filtered list, there are no more pairs than user messages |
| ChatView.PairsMembers | components/chat-interface.tsx:112-117 | an exchange is in the history exactly when some user message at position k is followed at k+1 by an `ai` message with that content |
| ChatView.PairsAppendExchange | components/chat-interface.tsx:112-117 | appending a user message and an `ai` message adds exactly their exchange at the end |
| ChatView.ReplyMessage | components/chat-interface.tsx:133-156 | the reply is `ai`-typed; on success it carries the answer and its follow-ups; on failure its content starts with `Error: ` followed by `FailureMessage` (`HTTP <status>` for a non-ok response, line 129, or the thrown message), and it has no follow-ups |
| ChatView.ReplyForStatus500 | components/chat-interface.tsx:129-153 | a 500 response is shown as exactly `Error: HTTP 500` followed by the credential hint, with no follow-ups |
| ChatView.HistoryAfterExchange | components/chat-interface.tsx:105-156 | after a question and its reply, answered or failed, the derived history is the old history plus that one exchange |
| ChatView.SentRequestsPassValidation | components/chat-interface.tsx:123-127 | a request the view sends, with a non-empty question and a valid mode, passes the handler's gate and reaches the service unchanged |
| ChatView.ChatInterface.constructor | components/chat-interface.tsx:22-24 | the view starts with no messages, an empty input and not busy |
| ChatView.ChatInterface.ProcessQuestion | components/chat-interface.tsx:89-127 | while busy nothing changes and nothing is sent; otherwise the busy flag is set, exactly `[user(question), loading]` is appended, and the question is sent with the history of the list as it was before the append |
| ChatView.ChatInterface.Complete | components/chat-interface.tsx:133-159 | every loading message is removed and the reply is appended last; after a started request this replaces exactly the trailing placeholder; the busy flag is cleared and the input is untouched |
| ChatView.ChatInterface.Submit | components/chat-interface.tsx:162-169 | blank input, or a busy view, changes nothing; otherwise the trimmed input is sent as the question and the input becomes `""` |
| ChatView.ChatInterface.SelectFollowUp | components/chat-interface.tsx:274 | clicking a follow-up sets the input to it, leaves the messages and the busy flag as they were, and sends nothing |
| ChatView.ChatInterface.EditInput | components/chat-interface.tsx:311-315 | typing changes the input only when the view is not busy |
| ChatView.AskAndAnswer | components/chat-interface.tsx:89-169 | a full submit-and-answer round leaves the view valid, not busy, with an empty input and one more exchange in its history |

## Findings

| source | as written | input that shows it | evidently intended | confidence | as-written member | corrected member |
|---|---|---|---|---|---|---|
| lib/ai-service.ts:31 | `prompts[mode] \|\| prompts.answer` indexes an object literal. Names inherited from `Object.prototype` resolve to functions, or for `__proto__` to the object `Object.prototype`; both are truthy, so `\|\|` does not fall back | a POST to `/api/chat` with mode `constructor`, `toString` or `__proto__`. The handler does not check the mode, so the answer call is given `Object`, a prototype function or `Object.prototype` as its system prompt, instead of a string | every mode outside the four gets the answer prompt | not executed; high for the lookup, unknown for what the model client does with a non-string system prompt | AiService.SystemPromptAsWrittenOnConstructor | AiService.SystemPrompt |
| lib/ai-service.ts:100 | `defaults[mode] \|\| defaults.answer` has the same inherited lookup | the same request, but line 100 is reached only if two things happen. First, the answer call must succeed even though it was given the inherited value of row 1 as its system prompt. Second, the follow-up call must then fail or return malformed text. `followUpQuestions` is then a function, or `Object.prototype` for `__proto__`, instead of three strings. `NextResponse.json` (app/api/chat/route.ts:22) drops a function-valued field, so the client receives no follow-ups | every mode outside the four gets the answer defaults | not executed; high for the lookup, low for reachability, which depends on row 1's call succeeding | AiService.DefaultFollowUpsAsWrittenOnToString | AiService.DefaultFollowUps |

The as-written functions are `AiService.SystemPromptAsWritten` and
`AiService.DefaultFollowUpsAsWritten`. `SystemPromptAsWrittenAgrees` and
`DefaultFollowUpsAsWrittenAgrees` show that they differ from the corrected
lookups only on `Object.prototype` names. The rest of the model uses the
corrected lookups.

## Left out

- The hosted model calls, `generateText` and the Groq client (lib/ai-service.ts:4-7, 47-53, 68-73). They are a network dependency, so they appear as the function parameters `AnswerModel` and `FollowUpModel`.
- `JSON.parse` of the trimmed follow-up text (lib/ai-service.ts:75). It is a library call. Only its three outcomes are modelled, and a parsed array's items are modelled as strings; the code passes non-string items through unchanged.
- Token limits and temperatures (lib/ai-service.ts:51-52, 71-72). They are configuration with no behaviour to verify.
- The `process.env` credential read and the module singleton (app/api/chat/route.ts:12, lib/ai-service.ts:105). The credential is a boolean parameter.
- ChatRoute.Post: body fields are modelled as present strings or absent. The JavaScript falsiness of `null`, `0`, `false` and other non-string JSON values is not modelled; an absent field stands in for each of them. `conversationHistory` is passed through without a check, as in the code, but its type is fixed to a sequence of exchanges.
- `fetch` and the HTTP transport (components/chat-interface.tsx:123-131) are I/O. Their result is the parameter `ResponseOutcome`: an answer, a non-ok status (the code throws `HTTP <status>`), or a thrown message.
- The `Date.now()` message ids (components/chat-interface.tsx:94, 100, 138, 151). They are nondeterministic, so messages carry no id.
- React scheduling (components/chat-interface.tsx:82-87, 89-160). The model has no asynchronous interleaving of `setMessages` updates, no stale closures, and no once-only initial-question effect. Each handler runs to its `await` as one step, and `Complete` follows `ProcessQuestion`.
- Viewport and keyboard detection, textarea auto-resize, auto-scroll, the Enter-key handler and all JSX rendering (components/chat-interface.tsx:32-79, 171-351). These are presentation.
- app/page.tsx and app/chat/page.tsx. The landing page is presentation. The second chat page only casts the mode and defaults it with `|| 'reflection'`, which components/chat-client.tsx already does with a proper membership check.
