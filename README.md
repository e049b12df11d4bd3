# MatchInsight / FootPredict AI — a verified model of the prediction and credit core

MatchInsight is a football-prediction platform. It has two halves:

- a NestJS backend, which holds users, projects, predictions and a credit ledger;
- a Next.js front end, which talks to the Anthropic model directly.

This project models the logic under the HTTP and UI plumbing in Dafny and proves what that logic promises.

**Backend services.** Each is a class over in-memory tables.
- `Users.UsersService` is the user table. It handles the email-uniqueness check, partial updates, credit moves and the stored refresh token.
- `Auth.AuthService` handles registration, login, refresh-token rotation and logout over that table.
- `Projects.ProjectsService` stores projects and checks ownership on every read and write.
- `Ai.AiService` is the credit-checked prediction flow. It has:
  - a Redis-style cache keyed by match;
  - the prediction queries;
  - the credit-charged chat;
  - the append-only credit-transaction ledger.

**Front-end AI services.**
- `PredictionServiceModel.PredictionService` is the process-local prediction cache with its hour-long lifetime.
- `UsageTracking` covers the usage log and its statistics, and the per-tier monthly limit check.
- `ChatServiceModel` covers the chat flow and its ordered error classification, the suggestion extractors, and the question-suggestion builder.

**Pure utilities.**
- `CostCalculator`: token prices as exact reals.
- `PromptBuilder`: whitespace normalisation, placeholder substitution and user-context notes.
- The three prompt builders: `ChatAssistantPrompt`, `MatchPredictionPrompt`, and the analysis prompt in `AnthropicClient`.
- `RedisConfig`: the client's connection defaults and the reconnect backoff.
- `Dtos`: the request validators.

**External effects are parameters.** The following are all function parameters:
- the model's reply and `JSON.parse`;
- argon2 hashing and verification;
- JWT signing and verification;
- the UUID grammar;
- the regular-expression captures of the extractors.

The clocks are integer parameters. Generated ids are the decimal strings of a per-table counter.

**Row order.**
- Table rows are kept in creation order, so `ORDER BY createdAt DESC` is the reverse of that order.
- A prompt's fixed wording is a `Wording` value. The layout lemmas hold for every wording, and `BuildX` applies the source's own wording.

Files:
- `common.dfy`: `Common` (Option, Result, HTTP errors, JavaScript truthiness) and `Json`;
- `strings.dfy`, `tables.dfy`: string and table helpers;
- `users.dfy`, `auth.dfy`, `projects.dfy`, `ai.dfy`: the backend;
- `prediction_service.dfy`, `usage_tracking.dfy`, `chat_service.dfy`: the front-end services;
- `cost.dfy`, `prompt_builder.dfy`, `chat_prompt.dfy`, `match_prompt.dfy`, `anthropic.dfy`, `redis.dfy`, `dtos.dfy`: the utilities and validators.

## Model

| member | source | states |
|---|---|---|
| Ai.CacheKey | backend/src/modules/ai/ai.service.ts:42 | the cache key of a match is `prediction:match:` followed by the decimal match id |
| Ai.CacheKeyInjective | backend/src/modules/ai/ai.service.ts:42 | two matches with the same key are the same match, so matches never share a cache entry |
| Ai.DigitsOnly | backend/src/modules/ai/ai.service.ts:42 | a natural number is written without a leading minus sign, so negative and non-negative ids never collide |
| Ai.GeneratePrediction | backend/src/modules/ai/ai.service.ts:110-145 | the stand-in prediction's three probabilities sum to 100, home is the most likely outcome and the winner is "home"; the analysis text is "Analyse générée par IA" when a client is configured and "Analyse générée" otherwise |
| Ai.FreshPrediction | backend/src/modules/ai/ai.service.ts:62-69 | on a miss, the request's own properties override the generated ones, and an explicit `null` winner or confidence overrides the generated value with `null`; the caller's id overrides both; match, project and scores come from the request, probabilities and analysis from the generated data |
| Ai.HitCopyAsWrittenUnsaveable | backend/src/modules/ai/ai.service.ts:43-52 | the cache-hit copy as written has no match id (the cached value is the generated data alone), so it cannot be stored in the NOT NULL `matchId` column |
| Ai.HitCopy | backend/src/modules/ai/ai.service.ts:46-52 | the corrected cache-hit copy can be saved: it carries the requested match id, the caller's id, the requested project and a fresh id, and otherwise equals the copy as written |
| Ai.HitAgreesWithMiss | backend/src/modules/ai/ai.service.ts:43-69 | for a request with no scores, winner or confidence, a hit and a miss on the same generated data save the same row |
| Ai.UsageTransaction | backend/src/modules/ai/ai.service.ts:152-158 | a usage transaction has amount −1, type USAGE and the caller's id, and links the prediction only when its id is truthy |
| Ai.ChargeKeepsLedger | backend/src/modules/ai/ai.service.ts:147-161 | for every user, taking one credit and appending its usage transaction keeps the balance minus the transaction total unchanged, and no user appears or disappears |
| Ai.AiService.constructor | backend/src/modules/ai/ai.service.ts:25-28 | the client is configured exactly when the environment key or the configured key is truthy; the tables and cache start empty |
| Ai.AiService.DeductCredit | backend/src/modules/ai/ai.service.ts:147-161 | a known user's balance moves by −1 and exactly one usage transaction is appended; an unknown user gets NotFound from `updateCredits`, with no row changed and no transaction saved; predictions and cache are untouched |
| Ai.AiService.CreatePrediction | backend/src/modules/ai/ai.service.ts:31-80 | unknown user gives NotFound and no credits gives Forbidden, both before the cache is read, and any error changes nothing; success happens exactly when the user has credits. A live hit saves the corrected copy of the cached data, carrying the requested match id, without generating anything; a miss generates, merges and caches for 3600 s. On success the row is appended, one credit is taken and one usage transaction linked to the new id is recorded |
| Ai.AiService.FindAll | backend/src/modules/ai/ai.service.ts:82-92 | the selected predictions in reverse creation order (newest first), each exactly once; the selection is the caller's rows, restricted to the project when a truthy project id is given |
| Ai.Requested | backend/src/modules/ai/ai.service.ts:83-86 | a prediction is selected exactly when it is the caller's and, for a truthy project id, belongs to that project |
| Ai.AiService.FindOne | backend/src/modules/ai/ai.service.ts:94-108 | BadRequest exactly when no prediction has the id, Forbidden exactly when the first prediction with the id belongs to someone else, else the caller's own row with that id |
| Ai.AiService.ChatWithAi | backend/src/modules/ai/ai.service.ts:163-198 | checks run in order: unknown user, no credits (Forbidden), unconfigured client (BadRequest). A failed call, an empty reply and a non-text block each become a prefixed BadRequest. Only a text reply is returned and charged, with one unlinked usage transaction; every error leaves balance and ledger unchanged |
| AnthropicClient.JsonSpan | lib/api/anthropic.ts:84 | the greedy `{…}` match is the span from the first `{` to the last `}` and starts and ends with braces |
| AnthropicClient.JsonSpanFound | lib/api/anthropic.ts:84 | a span is found exactly when some `{` precedes some `}` |
| AnthropicClient.JsonSpanInProse | lib/api/anthropic.ts:84 | JSON surrounded by prose with no `{` before it and no `}` after it is cut out exactly |
| AnthropicClient.ReplyText | lib/api/anthropic.ts:73-76 | a text first block gives its text, another block type gives "Unexpected response type from Claude API", and an empty reply gives the runtime error of reading an undefined block |
| AnthropicClient.ParseReply | lib/api/anthropic.ts:79-89 | the whole text is parsed first; if that fails the brace span is parsed; with no span the error is "Failed to parse Claude API response" |
| AnthropicClient.ProseAroundJsonIsSkipped | lib/api/anthropic.ts:79-89 | when the whole reply does not parse, a JSON object wrapped in prose is parsed on its own |
| AnthropicClient.NumberOrNA | lib/api/anthropic.ts:104-106 | a truthy number prints as its decimal, while an absent value or 0 prints "N/A" |
| AnthropicClient.StatsBlock | lib/api/anthropic.ts:101-115 | the stats block is empty exactly when no stats are given |
| AnthropicClient.FalsyStatsPrintNA | lib/api/anthropic.ts:101-115 | stats whose every field is falsy (including 0) print "N/A" on every line |
| AnthropicClient.ScoreLines | lib/api/anthropic.ts:119 | one head-to-head line per match, in order |
| AnthropicClient.HeadToHeadBlock | lib/api/anthropic.ts:117-120 | the head-to-head block is empty exactly when the list is absent or empty |
| AnthropicClient.MatchLines | lib/api/anthropic.ts:124-125 | one recent-match line per match, in order |
| AnthropicClient.RecentBlock | lib/api/anthropic.ts:122-126 | the recent-matches block is empty exactly when `recentMatches` is absent |
| AnthropicClient.Answer | lib/api/anthropic.ts:56-89 | a missing key is raised before any call; a failed call or a non-text block is passed on; otherwise the reply goes through the parse-then-span fallback |
| AnthropicClient.PredictionComesFromParse | lib/api/anthropic.ts:56-89 | a successful answer implies a key, a text first block, and a value that `parse` produced from either the whole text or its brace span |
| Auth.Issued | backend/src/modules/auth/auth.service.ts:79-108 | both tokens sign the payload `{email, sub: id, role}`, and the user view holds id, email, name, role, tier and credits |
| Auth.IssuedHidesSecrets | backend/src/modules/auth/auth.service.ts:95-107 | the token response does not depend on the password or on the previously stored refresh token |
| Auth.RefreshCheck | backend/src/modules/auth/auth.service.ts:58-73 | a token is accepted exactly when it verifies, its subject exists and is active, and the stored token equals it |
| Auth.LogoutRevokes | backend/src/modules/auth/auth.service.ts:75-77 | after the stored token is cleared, no token of that user is accepted |
| Auth.RotationRevokesOldTokens | backend/src/modules/auth/auth.service.ts:93 | after a new refresh token is stored, every other token of that user is refused |
| Auth.AuthService.constructor | backend/src/modules/auth/auth.service.ts:17-21 | the service works over the given user table with the configured lifetime |
| Auth.AuthService.GenerateTokens | backend/src/modules/auth/auth.service.ts:79-108 | returns the issued response and stores its refresh token on that user, changing nothing else |
| Auth.AuthService.Register | backend/src/modules/auth/auth.service.ts:23-38 | a known email gives Conflict and creates nothing; otherwise a new user with the hashed password is created and signed in with a stored refresh token |
| Auth.AuthService.Login | backend/src/modules/auth/auth.service.ts:40-56 | checks run in order: unknown email, then wrong password (both "Identifiants invalides"), then inactive account ("Compte désactivé"). Success happens exactly when all pass, and then the new refresh token is stored; errors change nothing |
| Auth.AuthService.Refresh | backend/src/modules/auth/auth.service.ts:58-73 | every failed check becomes the same Unauthorized error and changes nothing; success issues new tokens and rotates the stored one |
| Auth.AuthService.Logout | backend/src/modules/auth/auth.service.ts:75-77 | the user's stored refresh token is cleared and nothing else changes |
| Auth.AuthService.ValidateUser | backend/src/modules/auth/auth.service.ts:110-117 | the user without the password exactly when the email is known and the password verifies, and none otherwise |
| ChatAssistantPrompt.HistoryLines | lib/ai/prompts/chat-assistant.ts:29 | one `UTILISATEUR:`/`ASSISTANT:` line per message, in order |
| ChatAssistantPrompt.HistoryText | lib/ai/prompts/chat-assistant.ts:26-31 | an absent history gives "Aucune conversation précédente" and an empty one gives ""; otherwise the last five lines are joined by newlines |
| ChatAssistantPrompt.OlderMessagesIgnored | lib/ai/prompts/chat-assistant.ts:28 | messages older than the last five do not change the history text |
| ChatAssistantPrompt.LatestMessageShown | lib/ai/prompts/chat-assistant.ts:26-31 | the latest message always appears in a non-empty history |
| ChatAssistantPrompt.ListLine | lib/ai/prompts/chat-assistant.ts:36-37 | the teams or leagues line is empty exactly when the list is absent or empty; otherwise the items are joined by ", " |
| ChatAssistantPrompt.NameLine | lib/ai/prompts/chat-assistant.ts:35 | the name line appears exactly for a truthy name |
| ChatAssistantPrompt.PredictionLine | lib/ai/prompts/chat-assistant.ts:40 | the `(Résultat: …)` suffix appears exactly when a result is present |
| ChatAssistantPrompt.PredictionLines | lib/ai/prompts/chat-assistant.ts:40 | one line per prediction, in order |
| ChatAssistantPrompt.PredictionsBlock | lib/ai/prompts/chat-assistant.ts:38-41 | the block is empty exactly when the list is absent or empty; otherwise it holds the last three predictions |
| ChatAssistantPrompt.OlderPredictionsIgnored | lib/ai/prompts/chat-assistant.ts:40 | predictions older than the last three do not change the block |
| ChatAssistantPrompt.MessageVerbatim | lib/ai/prompts/chat-assistant.ts:54-57 | the user message appears verbatim under the question banner |
| ChatAssistantPrompt.MessageRecoverable | lib/ai/prompts/chat-assistant.ts:44-57 | different messages give different prompts in the same context |
| ChatAssistantPrompt.NameShown | lib/ai/prompts/chat-assistant.ts:35 | a truthy name appears as `- Nom: <name>` in the prompt |
| ChatServiceModel.ReplyText | lib/ai/services/ChatService.ts:53-60 | an absent or empty content list gives "Empty response from Claude API"; a non-text first block gives the unexpected-type message naming its type; otherwise the block's text |
| ChatServiceModel.ClassifyChatError | lib/ai/services/ChatService.ts:88-102 | first match wins: "401"/"authentication" gives invalid key, then "429"/"rate limit" gives rate limit, then "500"/"server" gives server error, each stated both ways; otherwise the error's message (or "Unknown error") is kept |
| ChatServiceModel.UnmatchedErrorKeepsMessage | lib/ai/services/ChatService.ts:100-102 | an unclassified error's message is contained in the raised message |
| ChatServiceModel.EmptyReplyReported | lib/ai/services/ChatService.ts:53-55 | the empty-reply error matches none of the three categories, so it is raised with its own message after the failure prefix |
| ChatServiceModel.ServerToolBlockReadAsServerError | lib/ai/services/ChatService.ts:57-60 | a first block of type `server_tool_use` is reported as a server error, because its type name contains "server" |
| ChatServiceModel.ExtractSuggestions | lib/ai/services/ChatService.ts:109-114 | at most three suggestions: the first captures, trimmed, in order |
| ChatServiceModel.ExtractRelatedMatches | lib/ai/services/ChatService.ts:119-124 | at most three related matches: the first captures, formatted "A vs B" |
| ChatServiceModel.ChatOutcome | lib/ai/services/ChatService.ts:31-104 | a missing key is raised unwrapped before the call; every failure of the call or the reply goes through the classification; success returns the reply text verbatim with its extracted suggestions and matches |
| ChatServiceModel.MissingKeyBeforeAnyCall | lib/ai/services/ChatService.ts:35-37 | without a key the outcome does not depend on the model at all |
| ChatServiceModel.FailuresAreClassified | lib/ai/services/ChatService.ts:84-103 | with a key, every error raised is one of the three fixed messages or starts with "Failed to get chat response: " |
| ChatServiceModel.AnswerIsReplyText | lib/ai/services/ChatService.ts:79-83 | a successful answer's message is the text of the model's first block, verbatim |
| ChatServiceModel.GenerateQuestionSuggestions | lib/ai/services/ChatService.ts:129-148 | length is 2 plus one per non-empty team or league list, between 2 and 4; it ends with the two fixed questions and starts with the team question when teams are present; the league question comes just before the fixed ones |
| ChatServiceModel.ChatService.constructor | lib/ai/services/ChatService.ts:9-13 | the service uses the given wording and usage log |
| ChatServiceModel.ChatService.Chat | lib/ai/services/ChatService.ts:31-104 | answers as `ChatOutcome`; a usage row priced as Sonnet is appended exactly when the answer succeeds, the user id is truthy, the reply reports usage and the insert succeeds |
| CostCalculator.Pricing | lib/ai/utils/cost-calculator.ts:10-23 | exactly the three listed models are priced, and each output price is five times its positive input price |
| CostCalculator.CalculateCost | lib/ai/utils/cost-calculator.ts:28-43 | an unknown model costs 0; otherwise the cost is input/1e6 times the input price plus output/1e6 times the output price |
| CostCalculator.NoTokensNoCost | lib/ai/utils/cost-calculator.ts:39-42 | no tokens cost nothing |
| CostCalculator.CostMonotone | lib/ai/utils/cost-calculator.ts:39-42 | more tokens of either kind never cost less |
| CostCalculator.OutputFiveTimesInput | lib/ai/utils/cost-calculator.ts:10-23 | `o` output tokens cost the same as `5o` input tokens |
| CostCalculator.CeilQuarter | lib/ai/utils/cost-calculator.ts:54-55 | the token estimate is the least `t` with `n <= 4t` |
| CostCalculator.EstimateCost | lib/ai/utils/cost-calculator.ts:48-58 | the estimate prices the ceiling of a quarter of each length |
| CostCalculator.DefaultOutputIs125Tokens | lib/ai/utils/cost-calculator.ts:51 | the default output length of 500 is priced as 125 tokens |
| Dtos.ValidatorLength | backend/src/modules/ai/dto/chat.dto.ts:7-8 | the length the `MinLength`/`MaxLength` validators measure is the number of characters minus the variation selectors U+FE0E and U+FE0F, so a character outside the Basic Multilingual Plane counts once |
| Dtos.PlainLength | backend/src/modules/ai/dto/chat.dto.ts:7-8 | for a string without variation selectors the measured length is its number of characters |
| Dtos.MatchIdAloneIsValid | backend/src/modules/ai/dto/create-prediction.dto.ts:6-34 | an integer match id alone is a valid prediction request |
| Dtos.MatchIdRequired | backend/src/modules/ai/dto/create-prediction.dto.ts:6-7 | a request without an integer match id is rejected |
| Dtos.FractionalConfidenceAccepted | backend/src/modules/ai/dto/create-prediction.dto.ts:31-34 | a confidence need not be an integer (85.5 is accepted) |
| Dtos.BadScoresRejected | backend/src/modules/ai/dto/create-prediction.dto.ts:15-24 | a negative or fractional score is rejected on either side |
| Dtos.WinnerUnchecked | backend/src/modules/ai/dto/create-prediction.dto.ts:26-28 | validity does not depend on the value of `predictedWinner` |
| Dtos.UndeclaredPropertyRejected | backend/src/main.ts:25-26 | a property outside the declared fields makes the request invalid |
| Dtos.ChatDtoErrors | backend/src/modules/ai/dto/chat.dto.ts:6-9 | there are no errors exactly when the only property is a string message whose measured length is 3 to 1000; a short message gets the minimum-length message, a long one the maximum-length message, a non-string the string message, and each extra property its own error |
| Dtos.CreateProjectIsUpdate | backend/src/modules/projects/dto/update-project.dto.ts:6-20 | every valid creation body is a valid update body, and empty update bodies (project and user) are valid |
| Dtos.ProjectNameBounds | backend/src/modules/projects/dto/create-project.dto.ts:6-15 | a valid creation body, or an update body with a name, has a string name whose measured length is 3 to 100, and any description is a string measuring at most 500 |
| Dtos.TwoCharacterNames | backend/src/modules/users/dto/update-user.dto.ts:7-9 | a two-character name is too short for a project but long enough for a user |
| Dtos.AstralCharacterCountsOnce | backend/src/modules/users/dto/update-user.dto.ts:8 | one emoji measures 1, so it fails the two-character minimum of a user name, and a chat message of two emoji gets the minimum-length error |
| Dtos.VariationSelectorNotCounted | backend/src/modules/ai/dto/chat.dto.ts:7-8 | a variation selector adds nothing to the measured length |
| Dtos.SixtyEmojiProjectName | backend/src/modules/projects/dto/create-project.dto.ts:7-8 | a project name of 60 emoji is within the 100-character maximum and is accepted |
| MatchPredictionPrompt.TextLine | lib/ai/prompts/match-prediction.ts:55 | the form line appears exactly for a truthy value |
| MatchPredictionPrompt.NumberLine | lib/ai/prompts/match-prediction.ts:56-58 | a numeric stat line appears exactly for a truthy number, so 0 is omitted |
| MatchPredictionPrompt.ResultLines | lib/ai/prompts/match-prediction.ts:61 | one `  - vs <opp>: <score> (<result>)` line per result, in order |
| MatchPredictionPrompt.ResultsBlock | lib/ai/prompts/match-prediction.ts:59-62 | the recent-results block appears exactly for a non-empty list |
| MatchPredictionPrompt.NoStatsNoLines | lib/ai/prompts/match-prediction.ts:55-58 | stats that are absent or 0 print only the empty lines |
| MatchPredictionPrompt.HeadToHeadLines | lib/ai/prompts/match-prediction.ts:80 | one line per head-to-head match, in order |
| MatchPredictionPrompt.HeadToHeadSection | lib/ai/prompts/match-prediction.ts:76-81 | the head-to-head section appears exactly for a non-empty list |
| MatchPredictionPrompt.InjuryLine | lib/ai/prompts/match-prediction.ts:87-88 | a side with no injuries reads "Équipe au complet"; otherwise the names are joined by ", " |
| MatchPredictionPrompt.InjuriesSection | lib/ai/prompts/match-prediction.ts:83-89 | the injuries section appears exactly when injuries are given |
| MatchPredictionPrompt.WeatherSection | lib/ai/prompts/match-prediction.ts:91-97 | the weather section appears exactly when weather is given |
| MatchPredictionPrompt.MatchLinesShown | lib/ai/prompts/match-prediction.ts:48-50 | the prompt always holds the MATCH, DATE and LIGUE lines |
| PredictionServiceModel.CacheKey | lib/ai/services/PredictionService.ts:129-131 | the key starts with `prediction:` |
| PredictionServiceModel.CacheKeyFields | lib/ai/services/PredictionService.ts:129-131 | after the `prediction:` prefix the key holds the home team, `:`, the away team, `:` and the date, and nothing else |
| PredictionServiceModel.CacheKeyDeterminesMatch | lib/ai/services/PredictionService.ts:129-131 | for team names without ':', equal keys mean the same teams and date |
| PredictionServiceModel.ValidationError | lib/ai/services/PredictionService.ts:136-146 | a prediction passes exactly when both scores and the confidence are numbers, the analysis is truthy and the key factors are an array; otherwise "Invalid prediction structure" (or the runtime error of reading `null`) |
| PredictionServiceModel.UncheckedFieldsIgnored | lib/ai/services/PredictionService.ts:136-146 | fields outside the five checked ones, such as probabilities and winner, never affect validation |
| PredictionServiceModel.PredictionFromReply | lib/ai/services/PredictionService.ts:45-90 | every error is wrapped in "Failed to generate prediction: "; a reply without a brace span gives the wrapped "No JSON found" error; a success is a validated value parsed from the span of a text reply |
| PredictionServiceModel.PredictionFromReplyCases | lib/ai/services/PredictionService.ts:56-89 | each path separately: a failed call, a reply without text, a span that does not parse and a parsed value that fails validation each give their own error behind the "Failed to generate prediction: " prefix; a text reply whose span parses to a valid prediction succeeds with that value |
| PredictionServiceModel.Lookup | lib/ai/services/PredictionService.ts:34-37 | an entry is served exactly when its expiry is strictly after now, and what is served is the cached data |
| PredictionServiceModel.Swept | lib/ai/services/PredictionService.ts:151-158 | the sweep keeps exactly the live entries, unchanged |
| PredictionServiceModel.SweepInvisibleToReads | lib/ai/services/PredictionService.ts:151-158 | a sweep at time `now` never changes what a read at `now` or later returns, because read and sweep share the expiry boundary |
| PredictionServiceModel.SweepIdempotent | lib/ai/services/PredictionService.ts:151-158 | sweeping twice is sweeping once |
| PredictionServiceModel.EntryLifetime | lib/ai/services/PredictionService.ts:79-82 | a stored entry is served exactly while the clock is below its save time plus 3600000 ms |
| PredictionServiceModel.PredictionService.constructor | lib/ai/services/PredictionService.ts:23 | the cache starts empty |
| PredictionServiceModel.PredictionService.GeneratePrediction | lib/ai/services/PredictionService.ts:28-91 | a live entry is returned with no key check and no call; otherwise a missing key is raised unwrapped; otherwise the prompt is sent and the reply validated; only a success is cached, with an expiry one hour after the save |
| PredictionServiceModel.PredictionService.ClearExpiredCache | lib/ai/services/PredictionService.ts:151-158 | removes exactly the entries with expiry at or before now and keeps all others unchanged |
| Projects.ApplyChanges | backend/src/modules/projects/projects.service.ts:51-55 | the properties present overwrite and the rest, including id and owner, are kept |
| Projects.Owned | backend/src/modules/projects/projects.service.ts:27 | exactly the caller's projects |
| Projects.Page | backend/src/modules/projects/projects.service.ts:28-29 | at most `limit` consecutive items after skipping `skip`, with the exact length |
| Projects.ConsecutivePages | backend/src/modules/projects/projects.service.ts:25-32 | two consecutive pages put together are the page spanning both |
| Projects.ProjectsService.constructor | backend/src/modules/projects/projects.service.ts:11-14 | the table starts empty |
| Projects.ProjectsService.Create | backend/src/modules/projects/projects.service.ts:16-23 | the new project belongs to the caller, starts active, has a fresh id and is appended |
| Projects.ProjectsService.FindAll | backend/src/modules/projects/projects.service.ts:25-32 | a page of the caller's projects, newest first, with the count of all of them |
| Projects.ProjectsService.FindOne | backend/src/modules/projects/projects.service.ts:34-49 | NotFound exactly for an unknown id, Forbidden exactly for another owner's project, else the caller's project |
| Projects.ProjectsService.Update | backend/src/modules/projects/projects.service.ts:51-55 | the changes reach the owner's project only; errors change nothing; every other row is kept |
| Projects.ProjectsService.Remove | backend/src/modules/projects/projects.service.ts:57-60 | after the same checks as `findOne`, exactly that project is removed; errors change nothing |
| PromptBuilder.CollapseWhitespace | lib/ai/utils/prompt-builder.ts:10 | the result has only single spaces as whitespace, never two in a row, and starts with whitespace exactly when the input does |
| PromptBuilder.CollapseKeepsText | lib/ai/utils/prompt-builder.ts:10 | collapsing whitespace keeps every non-whitespace character, in order |
| PromptBuilder.CollapseRun | lib/ai/utils/prompt-builder.ts:10 | a run of whitespace between a word and the rest of the text becomes exactly one space, so the words stay separated |
| PromptBuilder.TrimKeepsNormal | lib/ai/utils/prompt-builder.ts:10 | trimming a normalised string keeps it normalised and leaves no edge whitespace |
| PromptBuilder.OptimizePromptShape | lib/ai/utils/prompt-builder.ts:8-16 | the result has no leading or trailing whitespace, no two adjacent whitespace characters and no newline, so the `\n{3,}` step changes nothing |
| PromptBuilder.CollapseNormal | lib/ai/utils/prompt-builder.ts:10 | collapsing leaves an already normalised string unchanged |
| PromptBuilder.OptimizePromptIdempotent | lib/ai/utils/prompt-builder.ts:8-16 | optimising twice is optimising once |
| PromptBuilder.Render | lib/ai/utils/prompt-builder.ts:29 | undefined renders as "" and a string as itself |
| PromptBuilder.Placeholder | lib/ai/utils/prompt-builder.ts:28 | the placeholder is the key in braces |
| PromptBuilder.ReplaceAllAbsent | lib/ai/utils/prompt-builder.ts:30 | text without the placeholder is left unchanged |
| PromptBuilder.FirstOccurrenceSpec | lib/ai/utils/prompt-builder.ts:30 | the first occurrence found is an occurrence with none before it, and none is found exactly when there is none |
| PromptBuilder.ReplaceAllAtFirst | lib/ai/utils/prompt-builder.ts:30 | the text before the first occurrence is kept, the occurrence is replaced and the scan resumes after it |
| PromptBuilder.ReplaceAllSelf | lib/ai/utils/prompt-builder.ts:30 | replacing a placeholder by itself changes nothing |
| PromptBuilder.BuildPrompt | lib/ai/utils/prompt-builder.ts:21-34 | the result is the substitution of every variable in order, then normalised |
| PromptBuilder.NoPlaceholdersOnlyNormalises | lib/ai/utils/prompt-builder.ts:27-33 | a template without `{` is only normalised, whatever the variables |
| PromptBuilder.UserHeader | lib/ai/utils/prompt-builder.ts:49-51 | the header is `Utilisateur: <name>` plus a blank line, appearing exactly for a truthy name |
| PromptBuilder.ContextNotes | lib/ai/utils/prompt-builder.ts:53-59 | there are no notes exactly when there are no teams and the language is unset or "fr" |
| PromptBuilder.AddUserContext | lib/ai/utils/prompt-builder.ts:39-62 | the result is the header, the prompt, then the team and language notes |
| PromptBuilder.EmptyContextKeepsPrompt | lib/ai/utils/prompt-builder.ts:47-61 | an empty context returns the prompt unchanged |
| RedisConfig.ConnectionOptions | backend/src/modules/redis/redis.module.ts:17-22 | without configuration the defaults are localhost, 6379 and "matchinsight:"; each falsy configured value falls back on its default; the password passes through |
| RedisConfig.FalsyValuesFallBack | backend/src/modules/redis/redis.module.ts:19-22 | an empty host or prefix and port 0 are replaced by the defaults |
| RedisConfig.RetryDelay | backend/src/modules/redis/redis.module.ts:23-26 | the delay is `min(50·times, 2000)`: at most 2000, non-negative for non-negative attempts, and equal to 2000 from attempt 40 on |
| RedisConfig.RetryDelayMonotone | backend/src/modules/redis/redis.module.ts:24 | the delay never shrinks as attempts accumulate |
| UsageTracking.UserRows | lib/ai/services/UsageTrackingService.ts:46-51 | exactly the user's rows created since the window start |
| UsageTracking.GetUserUsage | lib/ai/services/UsageTrackingService.ts:40-59 | a failed read or missing data gives the empty list; otherwise the rows read |
| UsageTracking.LogRow | lib/ai/services/UsageTrackingService.ts:22-30 | the row records input plus output tokens and the calculated cost |
| UsageTracking.UsageLogTable.constructor | lib/ai/services/UsageTrackingService.ts:9 | the log starts empty |
| UsageTracking.UsageLogTable.LogUsage | lib/ai/services/UsageTrackingService.ts:13-35 | a successful insert appends the row; a failed one is swallowed and changes nothing |
| UsageTracking.CountFeature | lib/ai/services/UsageTrackingService.ts:72-75 | a feature count never exceeds the number of rows |
| UsageTracking.GetUserStats | lib/ai/services/UsageTrackingService.ts:64-80 | the request count is the number of rows; tokens and cost are sums with missing values as 0; there is one count per feature |
| UsageTracking.FeatureCountsPartition | lib/ai/services/UsageTrackingService.ts:72-75 | the four feature counts and the rows of other features add up to the number of rows |
| UsageTracking.FailedReadGivesZeroStats | lib/ai/services/UsageTrackingService.ts:55-58 | a failed read gives all-zero statistics |
| UsageTracking.LoggedRequestCounted | lib/ai/services/UsageTrackingService.ts:13-80 | logging one request in the window adds one request, its tokens and its cost to the statistics |
| UsageTracking.LimitFor | lib/ai/services/UsageTrackingService.ts:90-111 | an unknown tier or feature gets 0, premium is unlimited, and every finite limit is non-negative |
| UsageTracking.TierTable | lib/ai/services/UsageTrackingService.ts:90-109 | free allows 10/50/5/0 and pro 100/500/50/5 for prediction/chat/analysis/content |
| UsageTracking.MonthlyCount | lib/ai/services/UsageTrackingService.ts:122-126 | the monthly count never exceeds the number of rows |
| UsageTracking.CheckLimit | lib/ai/services/UsageTrackingService.ts:85-134 | unlimited gives allowed with no count; otherwise allowed exactly when the limit minus the monthly count is positive, with remaining the maximum of 0 and that difference |
| UsageTracking.FreeContentNeverAllowed | lib/ai/services/UsageTrackingService.ts:95 | free-tier content is never allowed |
| UsageTracking.FailedReadCountsNothing | lib/ai/services/UsageTrackingService.ts:55-58 | when usage cannot be read, the check behaves as if nothing had been used |
| UsageTracking.OneMoreRequestNeverHelps | lib/ai/services/UsageTrackingService.ts:122-133 | one more logged request never increases what remains or turns a refusal into an allowance |
| Users.NewRow | backend/src/modules/users/users.service.ts:22-25 | a new user gets the role USER, tier "free", 10 credits, an active account and no refresh token, with the given email, name and password |
| Users.PublicViewHidesSecrets | backend/src/modules/users/users.service.ts:30-34 | the public view does not depend on the password or the refresh token |
| Users.ApplyChanges | backend/src/modules/users/users.service.ts:55-59 | the properties present overwrite and every other field is kept |
| Users.EmptyChangesKeepUser | backend/src/modules/users/users.service.ts:55-59 | an empty update changes nothing |
| Users.WithRefreshToken | backend/src/modules/users/users.service.ts:66-68 | the row with the id gets the token (possibly none); every other row is kept |
| Users.WithCreditsMoved | backend/src/modules/users/users.service.ts:70-74 | the row with the id has its balance moved by the amount; every other row is kept |
| Users.RefreshTokenStored | backend/src/modules/users/users.service.ts:66-68 | the stored token is read back, and the public view of the row is unchanged |
| Users.UsersService.constructor | backend/src/modules/users/users.service.ts:11-14 | the table starts empty |
| Users.UsersService.FindByEmail | backend/src/modules/users/users.service.ts:49-53 | a user with that email, and none exactly when no row has it |
| Users.UsersService.FindOne | backend/src/modules/users/users.service.ts:36-47 | NotFound exactly for an unknown id, else the row with that id |
| Users.UsersService.FindAll | backend/src/modules/users/users.service.ts:30-34 | every user, in order, through the view without password or refresh token |
| Users.UsersService.Create | backend/src/modules/users/users.service.ts:16-28 | a known email gives Conflict and changes nothing; otherwise the new row gets a fresh id and is appended; ids and emails stay unique |
| Users.UsersService.Update | backend/src/modules/users/users.service.ts:55-59 | an unknown id gives NotFound and changes nothing; otherwise only that row gets the changes |
| Users.UsersService.Remove | backend/src/modules/users/users.service.ts:61-64 | an unknown id gives NotFound and changes nothing; otherwise exactly that user is gone |
| Users.UsersService.UpdateRefreshToken | backend/src/modules/users/users.service.ts:66-68 | sets the stored token (possibly to none) and nothing else |
| Users.UsersService.UpdateCredits | backend/src/modules/users/users.service.ts:70-74 | an unknown id gives NotFound; otherwise the balance moves by the amount with no lower bound and nothing else changes |

## Left out

- I/O: the database, Redis, the hosted usage store, the model API and the console are not called. Each table is a sequence or map, and each answer from outside is a parameter.
- Clocks: `Date.now()`, the Redis clock and the start of the month are integer parameters. Redis expiry is an entry's expiry second compared with the clock.
- Concurrency: the services are modelled one request at a time. The non-atomic "check credits, then decrement" across simultaneous requests and the unlocked shared caches are not modelled.
- Ai.AiService.DeductCredit: a failure to save the transaction after the credit was taken is not modelled, so for a known user the credit and the transaction always go together.
- Ai.AiService.CreatePrediction: the hit path saves the corrected copy `Ai.HitCopy`, which carries the requested match id. As written, the source's copy has no match id and its save fails (see "## Findings"; `Ai.HitCopyAsWritten` models that copy).
- Ai.AiService.CreatePrediction: the cache stores the generated data itself. The model assumes the JSON round trip through Redis returns it unchanged.
- Ai.AiService.ChatWithAi: the model call is one parameter from the message to a reply or an error message. The request options (model name, `max_tokens`) are not modelled.
- Ai.GeneratePrediction: the `matchId` argument is unused in the source, so the function does not take it.
- Auth.AuthService.Refresh: the JWT secret and expiry are folded into the `verify` and `sign` parameters.
- Ids: UUIDs are modelled as the decimal strings of a per-table counter, which keeps them fresh and distinct.
- Timestamps: `createdAt` is not stored. "Newest first" is the reverse of creation order.
- The users controller and its role guard are not modelled. The role enumeration file is not part of this model; its two values are written out as a datatype.
- Projects.ProjectsService.FindAll: the pagination DTO and its defaults are not part of this model. `skip` and `limit` are taken as given natural numbers. TypeORM ignores a `take` of 0 and returns every remaining row, but here a limit of 0 gives an empty page.
- The controllers are not modelled, including the page count `ceil(total / limit)` of the projects controller.
- A TypeORM `findOne` whose `id` is undefined, which can match an arbitrary row, is not modelled: the id is a plain string.
- Dtos: bodies are checked after implicit conversion, as JSON values. The conversion itself is not modelled, and neither are the validators' exact error-message lists for the non-chat DTOs.
- Dtos.ValidCreatePrediction: the UUID grammar of `@IsUUID()` is a parameter.
- PredictionServiceModel.PredictionService.GeneratePrediction: `explainPrediction` in the same file is not modelled. It is a second prompt and a model call with no cache and no validation.
- PredictionServiceModel.CacheKeyDeterminesMatch: it holds only for team names without ':'. Names containing ':' can collide, as in the source.
- AnthropicClient.GenerateMatchPrediction and the `BuildX` prompt functions carry no contract of their own. They apply the layouts and `Answer`, whose lemmas hold for every wording.
- Regular expressions: the capture lists of `extractSuggestions` and `extractRelatedMatches` are parameters. Only the bound of three and the output format are modelled.
- The greedy `/\{[\s\S]*\}/` match is modelled directly as the first-`{`-to-last-`}` span.
- PromptBuilder.BuildPrompt: a placeholder is matched as literal text. The source compiles `{key}` into a regular expression, and three cases differ from literal matching: keys with regular-expression metacharacters, keys such as `2` that form a quantifier, and `$` patterns in a replacement. Number values are integers.
- Projects.ProjectChanges: an explicit `null` name or `isActive` passes `@IsOptional`, and `Object.assign` would copy it. The model's changes cannot express either: a name is absent or a string, and `isActive` is absent or a boolean. An explicit `null` description is modelled.
- PromptBuilder.CollapseWhitespace: whitespace is the ECMAScript set written out in `Strings.IsWhitespace`.
- Floating point: costs and probabilities are exact reals. NaN, Infinity and rounding are not modelled, and neither is `formatCost`, which depends on `toFixed`.
- MatchPredictionPrompt.NumberLine: the source types the stats (`position`, `goalsFor`, `goalsAgainst`) as `number`, but the model takes them as integers, and the same holds for the head-to-head scores of MatchPredictionPrompt.HeadToHeadLines and the temperature of MatchPredictionPrompt.WeatherSection. A fractional value, such as a temperature of 18.5, cannot be given to the model, and neither can its JavaScript rendering.
- AnthropicClient.NumberOrNA: the analysis stats and the head-to-head scores of AnthropicClient.ScoreLines are `number` in the source but integers here, so fractional values and their rendering are not modelled.
- UsageTracking.LimitFor: premium's `Infinity` is the `Unlimited` case.
- Prototype keys: a tier, feature or model name such as "constructor" reads an inherited property in the source. Here it is simply unknown, in both `PRICING` and the tier table.
- UsageTracking.GetUserUsage: the query's `days` window is the `since` parameter. The `select('*')` row shape is the `UsageLog` datatype.
- ChatServiceModel.ChatService.Chat: the logging promise is not awaited in the source. Here the row is appended before the answer is returned, and a failed insert changes nothing.
- RedisConfig: the module decorator, the provider wiring and the duplicated import block are not modelled. Only the options object and the backoff function are.
- Strings: characters are Unicode scalar values, and string length is the number of characters. The model does not use UTF-16 code units anywhere. The DTO length validators count characters apart from the variation selectors (`Dtos.ValidatorLength`).

## Findings

| source | as written | input that shows it | evidently intended | confidence | as-written member | corrected member |
|---|---|---|---|---|---|---|
| backend/src/modules/ai/ai.service.ts:46-52 | the cache-hit copy is built from the cached value, which is the generated data alone. So it has no `matchId`, and saving it into the NOT NULL column (backend/src/entities/prediction.entity.ts:36-38) fails | a second `createPrediction` for the same match within an hour: the first request cached the data for the match, and the second hits the cache | the copy carries the requested match id, so the hit is saved and charged like a miss | not executed | Ai.HitCopyAsWrittenUnsaveable | Ai.HitCopy |
