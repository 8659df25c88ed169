# Vietnamese PT & nutrition coach: a verified model of its decision logic

This project models the decision logic of a small Vietnamese personal-trainer and nutrition
chat service. The service has a FastAPI back end and a browser front end.

- **Completeness gate** (`backend/chat.py`). It decides whether a conversation asks for a
  training or nutrition plan. It works out which of seven facts no user turn has supplied:
  goal, experience, equipment, schedule, limitations, diet and body metrics. From that list
  it builds one clarification text.
- **Upload checks and follow-up classifier** (`backend/meal_analysis.py`).
- **Model gateway** (`backend/gemini_client.py`):
  - the model list, de-duplicated;
  - the system instruction;
  - the fallback loop over the models, given as a sequence of per-model outcomes (answer,
    quota refusal, other API error, other exception);
  - the conversion of chat turns;
  - the empty-input guards.
- **HTTP layer** (`backend/main.py`):
  - the CORS origin list and the credentials rule;
  - the two request validators;
  - how each endpoint maps the gateway's outcome to a response.
- **Browser client** (`frontend/app.js`):
  - the session memory that `updateMemoryFromText` overwrites field by field (class
    `App.Memory`);
  - the chat history with its append, clear, send and finalize operations (class
    `App.ChatState`);
  - the pure `buildApiMessages` projection.

Modules:

- `Wrappers` (`wrappers.dfy`): `Option` and `Result`.
- `Text` (`text.dfy`): the string built-ins both languages use. These are `lower` and
  `toLowerCase` on the scripts Vietnamese text uses, Python `strip` and `split`, JavaScript
  `trim`, `in` and `includes`, and `split(",")` with its inverse `join`.
- `Chat` (`chat.dfy`): `backend/chat.py`.
- `MealAnalysis` (`meal_analysis.dfy`): `backend/meal_analysis.py`.
- `GeminiClient` (`gemini_client.dfy`): `backend/gemini_client.py`.
- `Api` (`api.dfy`): `backend/main.py`.
- `App` (`app.dfy`): `frontend/app.js`.

The scans in `chat.py` are loops in the source, so they are methods with loop invariants, each
proved against a specification function:
- `DetectPlanRequest` is proved against `IsPlanRequest`;
- `EvaluateMissingFields` (with its inner loop `RaiseFlags`) against `MissingFields`;
- `BuildClarificationPrompt` against `ClarificationText`.

The same holds for the gateway:
- `BuildModelNames` is proved against `Dedup`;
- `GenerateWithFallback` against `FallbackOutcome`;
- `ConvertMessages` against `Converted`.

The front end's `state` object is modelled by two classes:
- `Memory` holds one field per memory entry; `UpdateFromText` is proved to leave exactly
  `Updated(old profile, text)`.
- `ChatState` holds the history, the input box and the memory.

Regular expressions are written out as predicates over positions. A leftmost-match function
is proved to give the first position where the predicate holds:
- `\b\d{2,3}\s?(kg|kilô|kgm?)\b` and `\b\d{3}\s?cm\b` in `chat.py`;
- `/(\d+)\s*(buổi|ngày)/i` and `/(\d{2,3})\s?kg/i` in `app.js`.

Behaviour of the code worth noting:
- The chat endpoint does not run the completeness gate. Its call is commented out at
  `backend/main.py:91-94`. `Api.ChatEndpoint` forwards every conversation to the gateway,
  and `Chat.GuardChatRequest` is modelled on its own.
- An empty conversation makes the gateway raise `ValueError`. The chat endpoint's catch-all
  turns that into a 500, not a 400 (`Api.EmptyChatIsServerError`).
- A request-validation error is not a 400 here: the two request validators are pydantic
  validators, so the framework answers them with 422. Only a
  `ValueError` that leaves the gateway inside the finalize endpoint becomes a 400: the one
  from its blank-input check, or one raised by a model call, which the fallback loop lets
  through untouched (`Api.ModelValueErrorIsBadRequest`). The model therefore returns field
  errors from the validators and gives no status code for them.
- `min_length=10` on the finalize request is checked on the raw value. The stored value is
  the stripped one, so it can be shorter than ten characters (`Api.StoredMayBeShort`).

## Model

| member | source | states |
|---|---|---|
| `Chat.Keys` | backend/chat.py:32-40 | every key of the label table names its field back, so a list of fields and its list of keys correspond one to one |
| `Chat.KeyLookup` | backend/chat.py:32-40 | looking a field's key up finds that field, and no other key finds it |
| `Chat.FieldOrderDistinct` | backend/chat.py:32-40 | the seven fields of the scan order are pairwise different |
| `Chat.FieldOrderComplete` | backend/chat.py:32-40 | every field appears in the scan order, at the position its rank gives |
| `Chat.HasBodyMetrics` | backend/chat.py:43-46 | the body-metric test: a weight match, a height match or "tuổi" in the lower-cased text; `Chat.BodyMetricsDetected`, `Chat.BodyMetricsAbsent` and `Chat.NumericMetricsNeedDigit` characterise it |
| `Chat.NumericMetricsNeedDigit` | backend/chat.py:43-45 | a weight or height match needs a digit (`\d`, as ASCII digits) in the text |
| `Chat.WeightDigitsWhole` | backend/chat.py:44 | the digits of a weight match form a whole number: no digit right before them, and the next character is not a digit |
| `Chat.BodyMetricsDetected` | backend/chat.py:43-46 | "nặng 65kg", "23 tuổi", "150cm" and "nặng 70 kilô" all count as body metrics |
| `Chat.BodyMetricsAbsent` | backend/chat.py:43-46 | "không có gì" holds no weight, no height and no "tuổi" |
| `Chat.FourDigitWeightAbsent` | backend/chat.py:44 | "1234kg" is no weight: the word boundaries rule out a four-digit number |
| `Chat.SuppliedBeforeNext` | backend/chat.py:68-74 | a field is supplied by the first i+1 turns exactly when the first i supply it or turn i does |
| `Chat.AskedBeforeNext` | backend/chat.py:57-62 | a plan is asked for in the first i+1 turns exactly when the first i ask or turn i does |
| `Chat.AskedBeforeGrows` | backend/chat.py:57-62 | once a prefix of the turns asks for a plan, every longer prefix does |
| `Chat.FieldPresent` | backend/chat.py:49-53 | the body-metrics field is present when the body-metric test holds, any other field when one of its patterns occurs in the lower-cased text; `Chat.SuppliedBeforeNext` and `Chat.MissingFieldsIff` use it |
| `Chat.IsPlanRequest` | backend/chat.py:56-63 | some user turn's lower-cased content holds a plan keyword; `Chat.DetectPlanRequest` computes it and `Chat.AskedBeforeNext` builds it up turn by turn |
| `Chat.MissingFields` | backend/chat.py:66-75 | the fields no user turn supplies, in scan order; `Chat.MissingFieldsIff` and `Chat.MissingFieldsOrdered` characterise it |
| `Chat.Unflagged` | backend/chat.py:75 | the fields whose flag is down, in order; `Chat.UnflaggedUnsupplied` ties it to `Chat.MissingFields` |
| `Chat.DetectPlanRequest` | backend/chat.py:56-63 | true exactly when some user turn's lower-cased content contains a plan keyword |
| `Chat.RaiseFlags` | backend/chat.py:72-74 | after one turn, a field's flag is up exactly when it was up before or the text supplies the field; every field keeps a flag |
| `Chat.UnflaggedUnsupplied` | backend/chat.py:75 | when each flag says whether the field is supplied, the unflagged fields are the unsupplied ones in the same order |
| `Chat.EvaluateMissingFields` | backend/chat.py:66-75 | the result is the keys of the fields no user turn supplies, in label-table order |
| `Chat.ResolveKeys` | backend/chat.py:84-85 | the keys of a field list are all known, and looking them up gives the list back |
| `Chat.BulletsNext` | backend/chat.py:84-86 | each known key adds exactly its own bullet after those of the earlier keys |
| `Chat.BuildClarificationPrompt` | backend/chat.py:78-88 | "" for no keys; for known keys, the header, one bullet per key in input order and the footer, joined by newlines; otherwise a `KeyError` naming the first unknown key |
| `Chat.GuardChatRequest` | backend/chat.py:91-98 | none exactly when the conversation asks for no plan or misses nothing; otherwise the clarification text of the missing fields, which is not empty |
| `Chat.UnsuppliedMembers` | backend/chat.py:75 | a field is in the result exactly when it is scanned and no turn supplies it |
| `Chat.UnsuppliedNone` | backend/chat.py:75 | when every field is supplied nothing is missing |
| `Chat.UnsuppliedKeepsOrder` | backend/chat.py:75 | the result keeps the order of the scanned fields |
| `Chat.UnsuppliedLength` | backend/chat.py:75 | the result is no longer than the scanned list |
| `Chat.MissingFieldsOrdered` | backend/chat.py:32-40 | the missing fields follow the label-table order strictly, so they hold no duplicate, and there are at most seven |
| `Chat.MissingFieldsIff` | backend/chat.py:68-75 | a field is missing exactly when no user turn's lower-cased content supplies it |
| `Chat.UnsuppliedCongruent` | backend/chat.py:68-75 | two conversations supplying the same fields miss the same fields |
| `Chat.MoreTurnsMissLess` | backend/chat.py:56-75 | a conversation containing every turn of another misses no field that the other supplies, and still asks for a plan if the other does |
| `Chat.AppendNeverAddsMissing` | backend/chat.py:72-75 | appending a turn never adds a missing field and never withdraws a plan request |
| `Chat.SameTurnsSameResult` | backend/chat.py:56-75 | conversations with the same turns in any order and multiplicity give the same result |
| `Chat.NonUserTurnSupplies` | backend/chat.py:69-70 | inserting a non-user turn does not change which fields are supplied |
| `Chat.NonUserTurnAsks` | backend/chat.py:58-59 | inserting a non-user turn does not change whether a plan is asked for |
| `Chat.NonUserTurnsIgnored` | backend/chat.py:56-75 | inserting, removing or editing a non-user turn changes neither the missing list nor the plan decision |
| `Chat.LichTapAsksAndSchedules` | backend/chat.py:11-27 | a user turn containing "lịch tập" both asks for a plan and supplies the schedule |
| `Chat.CompleteRequestSupplies` | backend/chat.py:23-46 | the example request contains a plan keyword and supplies each field |
| `Chat.CompleteConversation` | backend/chat.py:91-97 | a single user turn carrying the example request asks for a plan and misses nothing, so the guard lets it through |
| `Chat.LabelSingleLine` | backend/chat.py:32-40 | no label contains a line break |
| `Chat.LabelsDistinct` | backend/chat.py:32-40 | no two fields share a label |
| `Chat.BulletsAt` | backend/chat.py:84-86 | bullet k is "- " followed by the label of field k |
| `Chat.ClarificationNonEmpty` | backend/chat.py:79-88 | the clarification text for a non-empty list is not empty |
| `Chat.ClarificationLinesShape` | backend/chat.py:81-87 | the lines are the header, one "- label" line per field and the footer, with no line break inside any line; only the bullet lines start with "- " |
| `Chat.ClarificationShape` | backend/chat.py:88 | splitting the clarification text at newlines gives back exactly its len(missing)+2 lines |
| `MealAnalysis.ReadImageBytes` | backend/meal_analysis.py:11-27 | accepted exactly when the type is allowed and the data holds 1 to 8 MiB bytes; accepted data is returned unchanged; each rejection is a 400 with the message of the first failing check |
| `MealAnalysis.TypeCheckedFirst` | backend/meal_analysis.py:12-17 | with a refused type the outcome does not depend on the data |
| `MealAnalysis.SizeBoundary` | backend/meal_analysis.py:22-27 | exactly 8 MiB is accepted and one byte more is refused as too large |
| `MealAnalysis.AllowedTypesListed` | backend/meal_analysis.py:7 | JPEG, PNG, WebP and HEIC are allowed, and a missing type is not |
| `MealAnalysis.MarkersSurviveLowering` | backend/meal_analysis.py:33-34 | the three markers found in the text are still found after lower-casing |
| `MealAnalysis.DetectFollowUpNeed` | backend/meal_analysis.py:30-34 | true for none or ""; otherwise true exactly when the lower-cased text contains "?", "vui lòng" or "hãy"; a "?" anywhere forces true |
| `MealAnalysis.UpperCaseImperative` | backend/meal_analysis.py:33-34 | "HÃY" needs a follow-up because lower-casing turns it into "hãy" |
| `MealAnalysis.StatementNeedsNoFollowUp` | backend/meal_analysis.py:34 | a statement without any marker needs no follow-up |
| `GeminiClient.Or` | backend/gemini_client.py:126-127 | Python `or` on an optional string: the value when it is non-empty, else the default |
| `GeminiClient.ResolvePrimary` | backend/gemini_client.py:126 | GEMINI_MODEL when set and non-empty; otherwise GEMINI_MODEL_PRIMARY when set and non-empty; otherwise the default; never empty |
| `GeminiClient.ResolveFallback` | backend/gemini_client.py:127 | GEMINI_MODEL_FALLBACK when set and non-empty; otherwise the default; never empty |
| `GeminiClient.Dedup` | backend/gemini_client.py:144-147 | the candidates kept in order, without empty names and without repeats; `GeminiClient.DedupProperties` and `GeminiClient.DedupTwo` characterise it |
| `GeminiClient.DedupProperties` | backend/gemini_client.py:144-147 | the model list has no duplicates, holds exactly the non-empty candidates and is no longer than the candidates |
| `GeminiClient.DedupTwo` | backend/gemini_client.py:144-147 | the four cases of two candidates: both kept in order, one dropped as empty or repeated, or none |
| `GeminiClient.BuildModelNames` | backend/gemini_client.py:144-147 | the loop builds the de-duplicated candidate list |
| `GeminiClient.NewClient` | backend/gemini_client.py:137-150 | a missing or empty key fails first; then an empty model list fails; otherwise the de-duplicated list is kept |
| `GeminiClient.ConfiguredModels` | backend/gemini_client.py:126-150 | with the configured names the list holds one or two distinct names, the primary first |
| `GeminiClient.BuildInstruction` | backend/gemini_client.py:152-156 | the system prompt alone without a non-empty extra instruction; otherwise the prompt, a blank line and the stripped extra instruction |
| `GeminiClient.BlankExtraInstruction` | backend/gemini_client.py:154-155 | an extra instruction of one space is non-empty, so it still adds the blank line |
| `GeminiClient.FirstStop` | backend/gemini_client.py:166-176 | the first attempt the loop does not move past; every earlier one was a quota refusal or an API error |
| `GeminiClient.FallbackOutcome` | backend/gemini_client.py:158-181 | the result of running the loop over the attempts; `GeminiClient.FirstAnswerWins`, `GeminiClient.RaisedPassesThrough`, `GeminiClient.QuotaTakesPrecedence`, `GeminiClient.AllApiErrors` and `GeminiClient.NoModelsMeansQuota` characterise it |
| `GeminiClient.RaisedPassesThrough` | backend/gemini_client.py:165-176 | after failures only, an exception that is neither a quota refusal nor an API error leaves the loop unchanged, keeping whether it is a `ValueError`, and no later model is called |
| `GeminiClient.GenerateWithFallback` | backend/gemini_client.py:158-181 | the loop gives the fallback outcome of the attempts and calls exactly as many models as that outcome needs |
| `GeminiClient.FirstAnswerWins` | backend/gemini_client.py:166-170 | after failures only, the first answer is returned stripped and no later model is called |
| `GeminiClient.LastQuotaPresent` | backend/gemini_client.py:171-173 | one quota refusal anywhere leaves a remembered quota refusal |
| `GeminiClient.QuotaTakesPrecedence` | backend/gemini_client.py:171-178 | when every model fails and one refused for quota, the result is a quota failure whatever the other errors, and every model was tried |
| `GeminiClient.NoQuotaAbsent` | backend/gemini_client.py:174-176 | API errors alone leave no quota refusal |
| `GeminiClient.AllApiErrors` | backend/gemini_client.py:174-180 | when every model raises another API error the result is "Lỗi Gemini: " and the last error |
| `GeminiClient.NoModelsMeansQuota` | backend/gemini_client.py:181 | an empty model list gives the default quota failure without calling anything |
| `GeminiClient.Converted` | backend/gemini_client.py:183-193 | the turns with non-blank content, stripped, "user" kept and every other role sent as "model"; `GeminiClient.ConvertedAppend`, `GeminiClient.ConvertedShape` and `GeminiClient.ConvertedSingle` characterise it |
| `GeminiClient.ApiRole` | backend/gemini_client.py:187-188 | "user" (or a missing role) stays "user"; every other role becomes "model" |
| `GeminiClient.ConvertMessages` | backend/gemini_client.py:183-193 | the loop builds the converted history |
| `GeminiClient.ConvertedAppend` | backend/gemini_client.py:186-192 | converting a concatenation converts each part, so the order of the turns is kept |
| `GeminiClient.ConvertOneShape` | backend/gemini_client.py:187-192 | one turn gives at most one entry, with a role of "user" or "model" and non-empty stripped content |
| `GeminiClient.ConvertedShape` | backend/gemini_client.py:183-193 | the converted history is no longer than the turns and every entry is well formed |
| `GeminiClient.ConvertedSingle` | backend/gemini_client.py:189-192 | a turn that is blank after stripping is dropped; any other yields its role and its stripped content |
| `GeminiClient.GenerateChatResponse` | backend/gemini_client.py:195-203 | an empty conversion fails with "Conversation history is empty." before any model is called; otherwise the fallback outcome |
| `GeminiClient.FinalizeMeal` | backend/gemini_client.py:217-220 | blank clarifications fail before any model is called; otherwise the fallback outcome |
| `GeminiClient.AnalyzeMeal` | backend/gemini_client.py:205-215 | the fallback outcome over the models |
| `Api.ParseOrigins` | backend/main.py:17-22 | unset or empty gives the wildcard; otherwise the comma-separated pieces, stripped, with the empty ones dropped, in order |
| `Api.NonEmptyStripped` | backend/main.py:19 | the stripped pieces that are not empty, in order; `Api.NonEmptyStrippedShape` and `Api.NonEmptyStrippedKeeps` characterise it |
| `Api.NonEmptyStrippedShape` | backend/main.py:19 | every parsed origin is non-empty and already stripped, and there are no more origins than pieces |
| `Api.NonEmptyStrippedKeeps` | backend/main.py:19 | pieces that are non-empty and stripped are kept as they are |
| `Api.OriginsRoundTrip` | backend/main.py:17-22 | joining clean origins with commas and parsing the result gives the origins back |
| `Api.AllowCredentials` | backend/main.py:24-26 | credentials are allowed exactly when the flag lowers to "true" and the parsed origins hold no wildcard; an unset flag means no |
| `Api.CredentialsAnyCase` | backend/main.py:24 | "TRUE" enables credentials, because the flag is lower-cased |
| `Api.MiddlewareOrigins` | backend/main.py:30 | the middleware gets the parsed origins, or the wildcard when they are empty |
| `Api.CorsAsWritten` | backend/main.py:17-34 | the configuration as written: credentials decided on the parsed origins, origins passed through the empty-list default; the middleware always gets at least one origin, and credentials are on only when the parsed list holds no wildcard |
| `Api.CommaParsesToNothing` | backend/main.py:18-22 | ALLOWED_ORIGINS="," parses to an empty list |
| `Api.WildcardWithCredentials` | backend/main.py:24-31 | as written, ALLOWED_ORIGINS="," with ALLOW_CREDENTIALS=true hands the middleware the wildcard together with credentials |
| `Api.CorsCorrected` | backend/main.py:24-31 | the corrected configuration decides credentials on the origins the middleware actually gets, so credentials are never on together with the wildcard |
| `Api.CorsNeverWildcardWithCredentials` | backend/main.py:24-31 | corrected, a wildcard never comes with credentials, and whenever the parsed list is non-empty the result is the same as the code's |
| `Api.ValidateMessage` | backend/main.py:51-59 | accepted exactly when the role is "user" or "assistant" and the content is not blank; accepted content is stored stripped; rejections list the role error and the content error in field order |
| `Api.ToGuardAll` | backend/main.py:61-62 | each validated turn becomes a dictionary turn with its role and content, one for one |
| `Api.ValidTurnConverts` | backend/main.py:55-62 | a validated turn converts to exactly one gateway entry, with its role renamed and its content as stored |
| `Api.ValidatedTurnsConvert` | backend/main.py:95-99 | a validated conversation converts one-for-one, so the gateway never sees an empty history from a non-empty request |
| `Api.ValidateFinalize` | backend/main.py:74-81 | accepted exactly when the raw value has at least 10 characters and its stripped form at least 5 words; the stripped form is stored; a raw value that is too short is rejected for its length first |
| `Api.FinalizeNeverBlank` | backend/main.py:77-81 | an accepted value is not blank, so the gateway's blank check never fires for it |
| `Api.StoredMayBeShort` | backend/main.py:75-81 | a value of 10 characters with a leading space is accepted but stored with only 9 |
| `Api.ChatEndpoint` | backend/main.py:89-113 | an answer is returned with the guard flag down; a quota refusal gives the fixed apology with the flag up; any other failure, configuration included, is a 500 prefixed "Lỗi khi gọi Gemini: " |
| `Api.EmptyChatIsServerError` | backend/main.py:95-113 | validated turns leave the gateway an empty history exactly when the request is empty, and the gateway's `ValueError` for it becomes a 500 |
| `Api.AnalyzeMealEndpoint` | backend/main.py:116-145 | an upload refusal is returned as it is; an answer comes with its follow-up flag; a quota refusal gives the fixed apology with the follow-up flag up; past the upload check the endpoint fails exactly when the client fails or the gateway fails other than for quota, and then with a 500 prefixed "Lỗi khi phân tích bữa ăn: " |
| `Api.UploadCheckedFirst` | backend/main.py:121-123 | a refused upload is a 400 whatever the client and the gateway would do |
| `Api.EmptyReplyNeedsFollowUp` | backend/main.py:129-132 | an empty answer is returned with the follow-up flag up |
| `Api.FinalizeEndpoint` | backend/main.py:148-167 | an answer is returned; a quota refusal gives the fixed apology; the endpoint fails exactly when the client fails or the gateway fails other than for quota; a `ValueError` from the gateway, its own or one passed through from a model call, is a 400 with its message; a client failure or any other gateway failure is a 500 prefixed "Lỗi khi tính dinh dưỡng: " |
| `Api.ModelValueErrorIsBadRequest` | backend/main.py:161-162 | a `ValueError` raised by the first model call comes out of the finalize endpoint as a 400 with its message |
| `App.Updated` | frontend/app.js:112-128 | the memory after the rules of every field have run on the text; `App.UpdatedNeverResets`, `App.UpdatedIdempotent` and `App.FieldsUpdated` characterise it |
| `App.NoRuleFires` | frontend/app.js:114-126 | when no trigger of a field occurs the field keeps its value |
| `App.LastFiringRuleWins` | frontend/app.js:114-126 | the last rule whose trigger occurs sets the field, whatever the earlier rules did |
| `App.AppliedNeverResets` | frontend/app.js:114-126 | a field that holds a value still holds one afterwards |
| `App.AppliedIdempotent` | frontend/app.js:114-126 | running the rules of a field twice on the same text changes nothing the second time |
| `App.DigitRun` | frontend/app.js:122 | the longest run of ASCII digits at a position |
| `App.SpaceRun` | frontend/app.js:122 | the longest run of white space at a position |
| `App.ScheduleAtWithoutBacktracking` | frontend/app.js:122 | a digit run and a space run that reach a unit word are the longest runs there, so the greedy reading of the regular expression loses no match |
| `App.ScheduleAtEarlier` | frontend/app.js:122 | a digit run can be entered one digit earlier and it still reaches the same unit word |
| `App.ScheduleMatch` | frontend/app.js:122 | none exactly when no position matches; otherwise the leftmost match, whose group is the whole digit run there |
| `App.ScheduleTakesWholeNumber` | frontend/app.js:122-123 | the schedule group is non-empty and starts at the beginning of a number, not in its middle |
| `App.BodyMatch` | frontend/app.js:127 | none exactly when no position matches; otherwise the leftmost match, with three digits preferred to two |
| `App.BodyGroupDigits` | frontend/app.js:127-128 | the body group is two or three ASCII digits inside the text |
| `App.BodyExample` | frontend/app.js:127 | in "1234kg" the body match is "234", starting at the second digit |
| `App.ScheduleExample` | frontend/app.js:122 | in "3 ngày" the schedule group is "3" |
| `App.GoalRulesWrittenOut` | frontend/app.js:114-116 | the goal is "giữ form" if its triggers occur, else "giảm mỡ" if its triggers occur, else "tăng cơ" if that occurs, else unchanged |
| `App.ExperienceRulesWrittenOut` | frontend/app.js:117-119 | the experience is the latest of "mới tập", "trung cấp", "nâng cao" whose triggers occur, else unchanged |
| `App.EquipmentRulesWrittenOut` | frontend/app.js:120-121 | "phòng gym" beats "tự do"; unchanged when neither trigger occurs |
| `App.DietRulesWrittenOut` | frontend/app.js:124-125 | "ít carb" beats "ăn chay"; unchanged when neither occurs |
| `App.LimitationRulesWrittenOut` | frontend/app.js:126 | "có hạn chế" when "đau" or "chấn thương" occurs, else unchanged |
| `App.UpdatedNeverResets` | frontend/app.js:112-128 | no keyword field that holds a value is reset |
| `App.MatchedFieldsNeverReset` | frontend/app.js:122-128 | neither the schedule nor the body weight is reset once set |
| `App.UpdatedIdempotent` | frontend/app.js:112-128 | updating the memory twice from the same text is the same as once |
| `App.LaterGoalWins` | frontend/app.js:114-115 | "tăng cơ" and "giảm cân" together give the goal "giảm mỡ" |
| `App.GymWins` | frontend/app.js:120-121 | "gym" sets the equipment to "phòng gym" even when "bodyweight" occurs too |
| `App.LowCarbWins` | frontend/app.js:124-125 | "ít carb" sets the diet even when "ăn chay" occurs too |
| `App.LimitationsRule` | frontend/app.js:126 | limitations become "có hạn chế" exactly when "đau" or "chấn thương" occurs, and are otherwise unchanged |
| `App.FieldsUpdated` | frontend/app.js:112-128 | the seven fields read one by one form the updated profile |
| `App.ReadGoal` | frontend/app.js:114-116 | the goal the three goal rules leave |
| `App.ReadExperience` | frontend/app.js:117-119 | the experience the three experience rules leave |
| `App.ReadEquipment` | frontend/app.js:120-121 | the equipment the two equipment rules leave |
| `App.ReadSchedule` | frontend/app.js:122-123 | the schedule from the first schedule match, else the old value |
| `App.ReadDiet` | frontend/app.js:124-125 | the diet the two diet rules leave |
| `App.ReadLimitations` | frontend/app.js:126 | the limitations the limitation rule leaves |
| `App.ReadBody` | frontend/app.js:127-128 | the body weight from the first body match, else the old value |
| `App.Memory.constructor` | frontend/app.js:7-15 | a fresh memory has every field empty |
| `App.Memory.UpdateFromText` | frontend/app.js:112-130 | the memory afterwards is the updated profile of the memory before |
| `App.BuildApiMessages` | frontend/app.js:103-110 | the payload is no longer than the history and holds only user and assistant turns |
| `App.ApiMessagesOfOne` | frontend/app.js:103-110 | a single user or assistant entry gives its role and content; any other entry gives nothing |
| `App.ApiMessagesConcat` | frontend/app.js:104-109 | projecting a concatenation projects each part, so the order is kept |
| `App.ApiMessagesDropsOthers` | frontend/app.js:105 | a history with no user or assistant entry gives an empty payload |
| `App.ApiMessagesKeepChat` | frontend/app.js:103-110 | a history of user and assistant entries gives one turn per entry, with the same role and content |
| `App.ApiMessagesIgnoreMeta` | frontend/app.js:106-109 | metadata and timestamps never reach the payload |
| `App.SentLast` | frontend/app.js:135-138 | the payload sent after a user's text ends with that text as a user turn |
| `App.ChatOnlyAppend` | frontend/app.js:63-70 | appending a user or assistant entry keeps a history made of such entries |
| `App.ChatOnlyPayload` | frontend/app.js:103-110 | a history of user and assistant entries is sent entry for entry |
| `App.ChatState.constructor` | frontend/app.js:5-16 | an empty history, an empty input box and an empty memory |
| `App.ChatState.AppendMessage` | frontend/app.js:63-73 | exactly one entry is added at the end, the earlier entries are unchanged, and a user or assistant entry keeps the history chat-only |
| `App.ChatState.ClearHistory` | frontend/app.js:227-232 | once confirmed the history is empty, otherwise unchanged; the memory and the input box are untouched |
| `App.ChatState.SendMessage` | frontend/app.js:132-138 | blank input changes nothing and sends nothing; otherwise the trimmed text is appended as a user entry, the memory is updated from it, the input box is cleared, and the payload is the projection of the new history |
| `App.ChatState.ReceiveChatReply` | frontend/app.js:147-154 | a reply is appended as an assistant entry tagged "guard" or "chat" by its flag; a failure is appended with the apology prefix and tagged "error" |
| `App.ChatState.FinalizeMeal` | frontend/app.js:199-213 | blank input changes nothing; otherwise the memory is updated from the trimmed text, a "Hoàn tất khẩu phần: " user entry tagged "finalize" is appended, the input box is cleared and the trimmed text is what is sent |
| `App.ChatState.ReceiveFinalizeReply` | frontend/app.js:216-221 | a reply is appended tagged "meal-final"; a failure is appended with the apology prefix and tagged "error" |
| `Text.Lower` | backend/chat.py:60 | lower-casing keeps the length and works character by character |
| `Text.LowerCharFixes` | backend/meal_analysis.py:33-34 | lower-casing leaves digits, white space and "?" alone and makes no digit out of any other character |
| `Text.ContainsLowered` | backend/chat.py:60-61 | a lower-case pattern found in a text is still found after lower-casing it |
| `Text.TrimEmptyIff` | backend/main.py:57 | stripping gives "" exactly when every character is white space |
| `Text.TrimIdempotent` | backend/main.py:59 | stripping a stripped string changes nothing |
| `Text.SplitJoin` | backend/main.py:19 | splitting pieces joined by a separator they do not contain gives the pieces back |
| `Text.JoinSplit` | backend/main.py:19 | joining the pieces of a split gives the string back |
| `Text.Words` | backend/main.py:79 | `split()` gives non-empty pieces without white space |
| `Text.WordsNonEmptyStrip` | backend/main.py:79 | a string with at least one word is not blank |

## Left out

- Calls to the hosted model are network I/O and are not part of this model. These include
  configuring the key, building a model, `generate_content` and `response.text`. Each model
  call is an `Attempt` value given to the fallback loop, and the client's outcome is a
  parameter of each endpoint.
- The system prompt and the two meal prompts are constants whose text is not modelled
  (`GeminiClient.SystemPrompt` has no value).
- Temperatures are floats passed through untouched.
- From `analyze_meal`, only the outcome is modelled. The composition of the payload (the
  optional note, the image part, the `image/jpeg` default for the type) is left out, because
  it only shapes data sent over the network.
- The environment is left out: `os.getenv` values are parameters, and dotenv loading is not
  modelled.
- The `lru_cache` that memoises the client is process-wide caching and is left out.
- The health endpoint holds no logic and is left out.
- The framework is left out: routing, the CORS middleware's own behaviour, `UploadFile.read()`
  and the 422 responses pydantic produces.
- `Api.ChatEndpoint`, `Api.AnalyzeMealEndpoint`, `Api.FinalizeEndpoint`: the detail of a 500
  is the prefix plus the error's message. The `status: detail` text Starlette gives a
  configuration `HTTPException` is written in `Api.ConfigErrorText` but is not promised
  character for character.
- `Text.Lower` lowers the ASCII capitals, the Latin-1 capitals U+00C0–U+00DE except `×`,
  the even/odd Latin Extended-A pairs U+0100–U+0137 and U+014A–U+0177 except U+0130 `İ`,
  Ơ/Ư, and the even/odd Latin Extended Additional pairs U+1E00–U+1E95 and U+1EA0–U+1EFF.
  `İ` is left as it is, because both Python and JavaScript lower it to the two characters
  "i̇", which a character-by-character map cannot give; so "25 TUỔİ" supplies no body
  metrics here, while in the source its lowered form contains "tuổi". The odd/even pairs U+0139–U+0148 and U+0179–U+017E, `Ÿ`, and every other character
  are left as they are, so full Unicode case mapping is not modelled.
- `Chat.WeightMatchAt`, `Chat.HeightMatchAt`, `Chat.NumericMetricsNeedDigit`: `\d` is modelled
  as the ASCII digits. Python's `re` on `str` also accepts every other Unicode decimal digit
  (for example "６５kg"), which the model does not.
- `\b` is modelled through a word-character predicate over the same scripts (`Text.IsWordChar`).
- The JavaScript `/i` flag is modelled by lower-casing the text before matching.
- `_field_present` is called with an unknown field name by nothing in the source. Fields are a
  datatype here, so the `FIELD_PATTERNS.get(field, [])` default for unknown names has no
  counterpart.
- The browser side is left out: the DOM, `renderMessages`, `toggleLoading`, `fetch`, the
  `localStorage` persistence (`loadState`, `saveState`) and the event wiring.
- `alert` is left out, and the answer of `confirm` is the `confirmed` parameter of
  `ClearHistory`.
- Timestamps are given as a parameter instead of read from the clock.
- The server's reply or error message is a parameter of the `Receive...` methods. The JSON
  decoding and the `data.detail || ...` fallback texts are left out.
- The upload flow `sendImage` and the greeting `bootstrap` appends are not part of this model.
- `App.ScheduleTakesWholeNumber` states only that the group is non-empty and starts at a
  number's first digit. That the group consists of digits follows from the ensures of
  `App.ScheduleMatch` and `App.DigitRun`.

## Findings

| source | as written | input that shows it | evidently intended | confidence | as-written member | corrected member |
|---|---|---|---|---|---|---|
| backend/main.py:24-30 | credentials are switched off only when the parsed origin list holds the wildcard, but the middleware receives `origins or ["*"]`, so an empty parsed list becomes the wildcard after the check | ALLOWED_ORIGINS="," and ALLOW_CREDENTIALS=true: the middleware gets `["*"]` with credentials allowed | credentials are never allowed together with the wildcard origin | not executed | `Api.WildcardWithCredentials` | `Api.CorsNeverWildcardWithCredentials` |
