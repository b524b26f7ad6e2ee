# INCADEV portal core, modelled in Dafny

This project models the parts of the INCADEV web portal that make decisions:

- **Landing-page chatbot** (`ChatbotButton`). A conversation is started on a remote assistant, and messages are exchanged under a typing gate. The conversation is ended with optional feedback.
- **Academic surveys dashboard** (`SurveysPage`). Every enrolled group is combined with every survey and its answered status. The page computes completed and pending statistics and marks a survey answered after submission.
- **Printable KPI report** (`KpiExportPDF`). It shows per-status counts, progress bars, trend badges and status colours.
- **Strategic dashboard.** Three parts are modelled:
  - the organisation search filter (`OrganizacionesPage`);
  - the plan/objective/KPI table with its level-dependent navigation (`DataTable`);
  - the session hook that strips the quotes around a stored token (`useStrategicAuth`).

The JavaScript string built-ins the pages use live in `Text`: `trim`, `toLowerCase`, `includes`, `String(n)`, `Number`, `parseInt`, and the anchored replace `/^"|"$/g`. Each page that uses them imports them.

Each source file keeps its own form:

- **Chatbot.** The component's state is `class Chatbot.ChatController`. Every handler is a method that updates the fields. The history is a `seq<Message>`, and the methods append to it. A send and the arrival of its reply are two separate events (`BeginExchange`, `ReceiveReply`), so other handlers can run while a reply is pending, as in the browser.
- **Surveys.** Loading, statistics and the nested "mark answered" update are functions. The page's state is `class Surveys.SurveysPage`.
- **Everything else** is pure functions and lemmas.

Remote replies are never fetched. Each one is an input value, with a catch-all "threw" variant for network errors. Storage reads are inputs too, and navigation is a returned URL.

Three behaviours of the code are easy to miss:

- **Non-success chat reply.** When the server answers a message without success, the assistant's bubble shows the server's `data.response` if there is one. The fixed fallback text appears only when that is missing or empty (`BotReply`).
- **Late chat reply.** The reply's id is fixed when the message is sent (`messages.length + 2` as the list stood then), and the reply is appended to the list as it stands when it arrives. Closing the chat while a reply is pending clears the history but leaves the typing flag raised. Until the reply arrives, the new conversation cannot send. The reply then lands in the new history with its old id (`LateReplyScenario`).
- **Failed chat start.** A failed start never writes the conversation id, so it stays as it was. Every caller starts only when there is no id, so in practice it stays unset.

## Model

| member | source | states |
|---|---|---|
| Text.TrimEmptyIffBlank | src/landing/components/ChatbotButton.tsx:126 | `!message.trim()` holds exactly when the input is only whitespace |
| Text.TrimSlice | src/landing/components/ChatbotButton.tsx:128 | trimming keeps one contiguous slice of the input and cuts only whitespace around it |
| Text.Trim | src/landing/components/ChatbotButton.tsx:128 | the trimmed message is no longer than the input and has no whitespace at either end |
| Text.TrimIdempotent | src/landing/components/ChatbotButton.tsx:128 | trimming twice is trimming once |
| Text.Lower | src/process/strategic/dashboard/organizaciones/OrganizacionPage.tsx:50-51 | one character's `toLowerCase`: an upper-case ASCII letter becomes its lower-case letter and every other character is kept |
| Text.LowerStr | src/process/strategic/dashboard/organizaciones/OrganizacionPage.tsx:50-51 | lower-casing keeps the length and lowers each letter in place |
| Text.IncludesAt | src/process/strategic/dashboard/organizaciones/OrganizacionPage.tsx:50-52 | `s.includes(sub)` (`Text.Includes`) holds exactly when `sub` starts at some index of `s` |
| Text.NotIncludesWithoutFirst | src/process/strategic/dashboard/organizaciones/OrganizacionPage.tsx:50-52 | a string lacking the first character of `sub` does not include `sub` |
| Text.IntToString | src/process/strategic/components/plan/DataTable.tsx:32-34 | `${n}` is non-empty, starts with `-` exactly for negatives, and ends in a digit (decimal form, as JavaScript prints integers below 10^21 in magnitude) |
| Text.IntToStringChars | src/process/strategic/components/plan/DataTable.tsx:32-34 | `${n}` consists of digits after an optional `-` |
| Text.NumberOfIntToString | src/process/strategic/components/plan/DataTable.tsx:45 | `Number(String(n))` gives back `n`; in JavaScript this holds for the safe integers, below 2^53 in magnitude |
| Text.JsNumber | src/process/strategic/components/plan/DataTable.tsx:45 | NaN only for non-blank text that is not all digits; a negative result only from text starting with `-`; after its first character the text of any number is digits |
| Text.ParseIntOfIntToString | src/process/academic/dasboard/surveys/SurveysPage.tsx:175 | `parseInt(String(n))` gives back `n`; in JavaScript this holds for the safe integers, below 2^53 in magnitude |
| Text.JsParseInt | src/process/academic/dasboard/surveys/SurveysPage.tsx:175 | a number only when a digit opens the text after leading whitespace and an optional sign; a negative only after `-`; text opening with any other character is NaN |
| Text.ParseIntStopsAtNonDigit | src/process/academic/dasboard/surveys/SurveysPage.tsx:175 | a run of digits followed by text that does not start with a digit parses as the value of that run (`parseInt("12abc")` is 12) |
| Text.StripQuotes | src/process/strategic/hooks/useStrategicAuth.ts:14 | at most one character goes at each end, and the length is kept exactly when neither end is a `"` |
| Text.StripQuotesSlice | src/process/strategic/hooks/useStrategicAuth.ts:14 | what is left is a contiguous slice of the token: from its second character when it starts with `"`, else from its first |
| Text.StripQuotesRemovesOnlyQuotes | src/process/strategic/hooks/useStrategicAuth.ts:14 | only a leading `"` and a trailing `"` can be removed |
| Text.StripQuotesUnquoted | src/process/strategic/hooks/useStrategicAuth.ts:14 | a token that neither starts nor ends with `"` is unchanged |
| Text.StripQuotesQuoted | src/process/strategic/hooks/useStrategicAuth.ts:14 | `"s"` strips to `s` for every `s` |
| Text.StripQuotesEdgeCases | src/process/strategic/hooks/useStrategicAuth.ts:14 | a lone `"` strips to nothing; `""x""` strips to `"x"`, so stripping is not idempotent |
| Chatbot.GrantedId | src/landing/components/ChatbotButton.tsx:83-86 | a start grants an id only on success with a truthy id, read from `data` when present and else from the top level |
| Chatbot.StartMessage | src/landing/components/ChatbotButton.tsx:88-116 | the one start message has id 1 and is the assistant's: the welcome (or the default welcome), the rejection notice, or the connection-error notice |
| Chatbot.BotReply | src/landing/components/ChatbotButton.tsx:155-194 | a served reply keeps the server's text, source and FAQ id; otherwise a non-empty fallback-tagged message (server text, fixed text, or the error text when the call threw) |
| Chatbot.FeedbackPayload | src/landing/components/ChatbotButton.tsx:207-211 | feedback is sent exactly with `sendFeedback`, is always `resolved`, and omits a zero rating and an empty comment |
| Chatbot.ExchangeKeepsWellFormed | src/landing/components/ChatbotButton.tsx:129-136 | one exchange keeps ids `1..n` and the assistant/user alternation, and only appends |
| Chatbot.UserTurnsOfExchanged | src/landing/components/ChatbotButton.tsx:129-136 | each exchange adds exactly one user message |
| Chatbot.WellFormedCount | src/landing/components/ChatbotButton.tsx:129-172 | a well-formed history has 2 &times; (user messages) + 1 entries |
| Chatbot.ChatController.constructor | src/landing/components/ChatbotButton.tsx:22-31 | the initial state: closed, no conversation, empty history and buffers |
| Chatbot.ChatController.QuickQuestionsShown | src/landing/components/ChatbotButton.tsx:511 | chips show only while one assistant message stands alone and no reply is pending, that is, in a settled history, exactly before the first user turn; a click passes the typing gate, but after a failed start the chips show and the click is refused for want of a conversation (`FailedStartScenario`) |
| Chatbot.ChatController.RetryOffered | src/landing/components/ChatbotButton.tsx:534 | the retry button shows exactly without a conversation once loading is over, and then nothing can be sent |
| Chatbot.ChatController.SendEnabled | src/landing/components/ChatbotButton.tsx:561 | an enabled send button implies the handler's guard holds; once loading is over, the two coincide |
| Chatbot.ChatController.StartConversation | src/landing/components/ChatbotButton.tsx:69-121 | the granted id is stored (otherwise the id is kept), the history becomes the single start message, the loading flag ends cleared, and the invariant is kept |
| Chatbot.ChatController.ToggleOpen | src/landing/components/ChatbotButton.tsx:44-56 | the floating button toggles the window; opening without a conversation starts one and ends with loading cleared; otherwise nothing else changes, the loading flag included |
| Chatbot.ChatController.Minimize | src/landing/components/ChatbotButton.tsx:428 | minimising closes the window and keeps the conversation |
| Chatbot.ChatController.RetryConnection | src/landing/components/ChatbotButton.tsx:536-540 | the retry button, offered only without a conversation, starts a new one |
| Chatbot.ChatController.SetInput | src/landing/components/ChatbotButton.tsx:548 | typing changes only the input buffer |
| Chatbot.ChatController.BeginExchange | src/landing/components/ChatbotButton.tsx:129-138 | the user message is appended with id `n+1`, the typing flag is raised, the reply's id is fixed at `n+2`, and a settled history becomes one awaiting exactly that reply |
| Chatbot.ChatController.HandleSendMessage | src/landing/components/ChatbotButton.tsx:125-138 | blank input, no conversation or a pending reply change nothing; otherwise the trimmed text is sent, the input is cleared and the reply is awaited |
| Chatbot.ChatController.HandleQuickQuestion | src/landing/components/ChatbotButton.tsx:271-283 | the same send for the chosen predefined prompt, without a blank check and without touching the input; the chips disappear |
| Chatbot.ChatController.ReceiveReply | src/landing/components/ChatbotButton.tsx:155-197 | the assistant message gets the id fixed at the send and is appended to the list as it now stands, and the typing flag is lowered; after a plain send this completes one exchange and the history is well formed again |
| Chatbot.ChatController.SetRating | src/landing/components/ChatbotButton.tsx:363 | a star click sets the rating and nothing else |
| Chatbot.ChatController.SetComment | src/landing/components/ChatbotButton.tsx:381 | typing in the comment box sets only the comment |
| Chatbot.ChatController.EndConversation | src/landing/components/ChatbotButton.tsx:203-238 | without a conversation nothing is sent; otherwise the end request carries the id and feedback, and all conversation state is cleared whatever the request does |
| Chatbot.ChatController.HandleClose | src/landing/components/ChatbotButton.tsx:243-250 | after an exchange it only asks for feedback; otherwise it closes and ends without feedback |
| Chatbot.ChatController.HandleCloseWithoutFeedback | src/landing/components/ChatbotButton.tsx:255-258 | "Omitir" closes and ends without feedback |
| Chatbot.ChatController.HandleSubmitFeedback | src/landing/components/ChatbotButton.tsx:263-266 | "Enviar" closes and ends with the rating and comment |
| Chatbot.FirstExchange | src/landing/components/ChatbotButton.tsx:125-197 | after the welcome, one question and its reply leave a settled three-message history; a second send while the reply is pending is refused and keeps its text in the input box |
| Chatbot.EndMidExchange | src/landing/components/ChatbotButton.tsx:203-238 | closing while a reply is pending ends the conversation and clears the history, but the typing flag stays raised and the reply's id stays fixed |
| Surveys.BearerHeader | src/process/academic/dasboard/surveys/SurveysPage.tsx:97-103 | the header is `Bearer ` followed by the quote-stripped token, or by `undefined` when there is none |
| Surveys.BearerHeaderOfStoredToken | src/process/academic/dasboard/surveys/SurveysPage.tsx:97 | a token stored with JSON quotes is sent bare, an unquoted one as stored, and a missing one as `undefined` |
| Surveys.CheckSurveyStatus | src/process/academic/dasboard/surveys/SurveysPage.tsx:149-178 | the server's status, or on any failure "not answered" for the same event and `parseInt` of the group id |
| Surveys.FailedCheckKeepsGroupId | src/process/academic/dasboard/surveys/SurveysPage.tsx:170-177 | a failed check for a numeric group id reports that same id (in JavaScript, for the safe integers) |
| Surveys.WithStatuses | src/process/academic/dasboard/surveys/SurveysPage.tsx:195-203 | one entry per survey, in order, each with the status `StatusFor` gives from the response check for the group and the survey's event |
| Surveys.Combine | src/process/academic/dasboard/surveys/SurveysPage.tsx:193-209 | one entry per group, in order, each listing every survey |
| Surveys.RespondedCount | src/process/academic/dasboard/surveys/SurveysPage.tsx:274 | the answered count never exceeds the number of entries |
| Surveys.TotalSurveysZero | src/process/academic/dasboard/surveys/SurveysPage.tsx:269-271 | `TotalSurveys`, the sum of the groups' survey counts, is 0 exactly when no group lists a survey |
| Surveys.CompletedSurveys | src/process/academic/dasboard/surveys/SurveysPage.tsx:273-275 | the completed count never exceeds the total |
| Surveys.PendingSurveys | src/process/academic/dasboard/surveys/SurveysPage.tsx:277 | `pending` is never negative, never exceeds the total, and equals it exactly when nothing is completed |
| Surveys.RespondedCountAllOrNone | src/process/academic/dasboard/surveys/SurveysPage.tsx:274 | the count equals the length exactly when all are answered, and is 0 exactly when none is |
| Surveys.AllChecksFailedAllPending | src/process/academic/dasboard/surveys/SurveysPage.tsx:169-209 | when every status check fails, nothing is completed and the total is groups &times; surveys |
| Surveys.GetSurveyStatus | src/process/academic/dasboard/surveys/SurveysPage.tsx:279-281 | "completed" exactly when answered and "pending" otherwise; "in progress" is never chosen |
| Surveys.ShownLabels | src/process/academic/dasboard/surveys/SurveysPage.tsx:65-84 | a card reads "Completada" when answered and "Pendiente" otherwise, never "En progreso" |
| Surveys.MarkResponded | src/process/academic/dasboard/surveys/SurveysPage.tsx:242-264 | in the chosen group the surveys of the chosen event become answered; nothing else changes |
| Surveys.MarkRespondedIdempotent | src/process/academic/dasboard/surveys/SurveysPage.tsx:242-264 | submitting the same pair twice is the same as once |
| Surveys.MarkInGroupCount | src/process/academic/dasboard/surveys/SurveysPage.tsx:246-257 | marking never lowers a group's answered count |
| Surveys.MarkRespondedStatistics | src/process/academic/dasboard/surveys/SurveysPage.tsx:242-277 | a submit keeps the total and never lowers the completed count |
| Surveys.SurveysPage.constructor | src/process/academic/dasboard/surveys/SurveysPage.tsx:88-92 | the page starts with the spinner on, no data, no selection and no error |
| Surveys.SurveysPage.LoadData | src/process/academic/dasboard/surveys/SurveysPage.tsx:181-224 | it runs only with a truthy token; a failed list read keeps the groups and shows its message; otherwise the combined data is stored and the spinner ends |
| Surveys.SurveysPage.HandleSurveyClick | src/process/academic/dasboard/surveys/SurveysPage.tsx:226-231 | an answered survey is not opened; any other is selected and the dialog opens |
| Surveys.SurveysPage.ClickCard | src/process/academic/dasboard/surveys/SurveysPage.tsx:374-387 | clicking a card opens the dialog for that survey, group and event unless it is completed |
| Surveys.SurveysPage.SetDialogOpen | src/process/academic/dasboard/surveys/SurveysPage.tsx:447 | the dialog's own control changes only the open flag |
| Surveys.SurveysPage.HandleCloseDialog | src/process/academic/dasboard/surveys/SurveysPage.tsx:233-236 | closing hides the dialog and clears the selection |
| Surveys.SurveysPage.HandleSurveySubmit | src/process/academic/dasboard/surveys/SurveysPage.tsx:238-266 | with a selection, its pair is marked answered and the dialog closes, with the total kept and the completed count not lowered; without one, nothing happens |
| KpiExport.CountStatus | src/process/administrative/indicators/components/kpi-export-pdf.tsx:88-90 | a status count never exceeds the number of KPIs |
| KpiExport.CountsPartition | src/process/administrative/indicators/components/kpi-export-pdf.tsx:88-90 | with only the three declared statuses, the counts add up to the number of KPIs |
| KpiExport.CountsMissUndeclared | src/process/administrative/indicators/components/kpi-export-pdf.tsx:12 | a list whose statuses are all outside the declared three has none of them counted |
| KpiExport.StatusColor | src/process/administrative/indicators/components/kpi-export-pdf.tsx:51-58 | each known status has its class, and any other status falls back to the attention class |
| KpiExport.TrendIconOf | src/process/administrative/indicators/components/kpi-export-pdf.tsx:60-64 | up, down or flat exactly by the sign of the trend |
| KpiExport.Progress | src/process/administrative/indicators/components/kpi-export-pdf.tsx:137 | progress is 0 without a positive goal, otherwise current/goal &times; 100, reaching 100 exactly when the goal is met |
| KpiExport.BarWidth | src/process/administrative/indicators/components/kpi-export-pdf.tsx:192 | the bar width is the progress capped at 100 |
| KpiExport.TrendPrefix | src/process/administrative/indicators/components/kpi-export-pdf.tsx:171 | a `+` appears exactly for a positive trend |
| KpiExport.CardOf | src/process/administrative/indicators/components/kpi-export-pdf.tsx:137-205 | progress is current/goal &times; 100 (0 without a positive goal); the bar is that capped at 100 and full exactly when the goal is met; the arrow follows the trend's sign and `+` appears exactly for a positive trend; the previous value shows exactly when positive and the badge exactly for a non-zero trend |
| KpiExport.Cards | src/process/administrative/indicators/components/kpi-export-pdf.tsx:136-207 | one card per KPI, in order |
| KpiExport.Render | src/process/administrative/indicators/components/kpi-export-pdf.tsx:77-118 | the no-data screen exactly when the data or its list is missing (an empty list still reports); otherwise the summary counts and the cards |
| KpiExport.ReportSummaryAddsUp | src/process/administrative/indicators/components/kpi-export-pdf.tsx:88-118 | with declared statuses, the three summary tiles add up to the total tile |
| Organizaciones.Matches | src/process/strategic/dashboard/organizaciones/OrganizacionPage.tsx:49-53 | an empty search matches every record |
| Organizaciones.Filtered | src/process/strategic/dashboard/organizaciones/OrganizacionPage.tsx:48-53 | the filter keeps only listed records that match, and never adds any |
| Organizaciones.FilteredMembership | src/process/strategic/dashboard/organizaciones/OrganizacionPage.tsx:48-53 | a record is kept exactly when it is listed and its type or email contains the search ignoring case, or its RUC contains it exactly |
| Organizaciones.FilteredMultiset | src/process/strategic/dashboard/organizaciones/OrganizacionPage.tsx:48-53 | each record is kept as many times as it is listed when it matches, and not at all otherwise |
| Organizaciones.FilteredIsSubsequence | src/process/strategic/dashboard/organizaciones/OrganizacionPage.tsx:48 | the result keeps the list's order |
| Organizaciones.EmptySearchKeepsAll | src/process/strategic/dashboard/organizaciones/OrganizacionPage.tsx:48-53 | an empty search keeps every record |
| Organizaciones.FilteredEmptyIff | src/process/strategic/dashboard/organizaciones/OrganizacionPage.tsx:48-53 | nothing is left exactly when no record matches |
| Organizaciones.ShowsNoResultsRow | src/process/strategic/dashboard/organizaciones/OrganizacionPage.tsx:116-125 | the "No se encontraron organizaciones." row shows exactly when no listed record matches |
| Organizaciones.SearchIgnoresCaseOfEmail | src/process/strategic/dashboard/organizaciones/OrganizacionPage.tsx:51 | "GOB" finds the ministry through its lower-case email |
| Organizaciones.MatchesByEmailWindow | src/process/strategic/dashboard/organizaciones/OrganizacionPage.tsx:51 | a record whose email spells the search from some index on, ignoring case, matches |
| Organizaciones.NoMatchWithoutFirst | src/process/strategic/dashboard/organizaciones/OrganizacionPage.tsx:50-52 | a record none of whose searched fields holds the search's first letter does not match |
| Organizaciones.SearchGobSkipsUniversity | src/process/strategic/dashboard/organizaciones/OrganizacionPage.tsx:48-53 | "GOB" does not find the university |
| Organizaciones.SearchGobSkipsCompany | src/process/strategic/dashboard/organizaciones/OrganizacionPage.tsx:48-53 | "GOB" does not find the company |
| PlanTable.HandleSelect | src/process/strategic/components/plan/DataTable.tsx:30-38 | a URL is chosen exactly for the plan and objective levels; any other level, or none, navigates nowhere |
| PlanTable.PlanTargetReadsBack | src/process/strategic/components/plan/DataTable.tsx:32 | the plan level goes to `/estrategico/plan/objetivos` with the row's id as the `id` parameter |
| PlanTable.ObjetivoTargetPairs | src/process/strategic/components/plan/DataTable.tsx:34 | the objective level's query is exactly the `planId` pair followed by the `id` pair |
| PlanTable.ObjetivoTargetReadsBack | src/process/strategic/components/plan/DataTable.tsx:34 | the objective level goes to `/estrategico/plan/objetivos/kpis` with `planId` (or `undefined`) and the row's id as `id` |
| PlanTable.Lookup | src/process/strategic/components/plan/DataTable.tsx:44-45 | `params.get(name)` is null exactly when no pair has that name; otherwise it is the value of the first pair with that name |
| PlanTable.SearchParam | src/process/strategic/components/plan/DataTable.tsx:44 | a URL without a query has no parameters |
| PlanTable.ObjetivoId | src/process/strategic/components/plan/DataTable.tsx:44-45 | `objetivoId` is 0 for a missing or non-numeric parameter and otherwise exactly what `Number` reads (so 0 also for `"0"`) |
| PlanTable.TargetPageReadsId | src/process/strategic/components/plan/DataTable.tsx:30-45 | the page reached by "Ver" reads the clicked row's id back as `objetivoId` |
| PlanTable.ObjetivoIdOfText | src/process/strategic/components/plan/DataTable.tsx:45 | a parameter such as `abc` gives `objetivoId` 0 |
| PlanTable.Rows | src/process/strategic/components/plan/DataTable.tsx:66-76 | empty data renders exactly the placeholder row; otherwise one row per item, in order |
| PlanTable.Click | src/process/strategic/components/plan/DataTable.tsx:92-115 | "Ver" navigates exactly on the two navigating levels; edit and delete call their callback with the row's id exactly when it is given |
| PlanTable.ClickTargetsItsRow | src/process/strategic/components/plan/DataTable.tsx:92-115 | whatever a click does, it concerns the clicked row's id |
| PlanTable.PagesOnlyNavigate | src/process/strategic/dashboard/plan/KpiPage.tsx:30 | on the KPI page no button does anything; on the plan and objective pages only "Ver" does, and it navigates |
| PlanTable.PlanIdText | src/process/strategic/dashboard/plan/ObjetivoPage.tsx:25 | the plan id in the URL holds no query separator, `undefined` included |
| StrategicAuth.CleanToken | src/process/strategic/hooks/useStrategicAuth.ts:14 | a missing or empty stored token gives no token; any other is stripped, losing at most one character at each end |
| StrategicAuth.UserOf | src/process/strategic/hooks/useStrategicAuth.ts:17-21 | a missing or empty stored user gives no user; any other gives exactly the parse's outcome |
| StrategicAuth.MountSteps | src/process/strategic/hooks/useStrategicAuth.ts:16-22 | `mounted` is set only in the last step, which already holds the cleaned token and the user |
| StrategicAuth.CleanTokenQuoting | src/process/strategic/hooks/useStrategicAuth.ts:14 | a stored `"s"` gives `s`, and an unquoted token is kept |
| StrategicAuth.CleanTokenEdgeCases | src/process/strategic/hooks/useStrategicAuth.ts:14 | no token and an empty one give none; `"` and `""` both give the empty token |
| StrategicAuth.SurveysHeaderStripsLikeHook | src/process/academic/dasboard/surveys/SurveysPage.tsx:124 | the surveys page (whose token comes from the academic session hook) strips quotes like this hook: for the same non-empty token text its header carries exactly the token this hook keeps |

## Left out

- **Network.** All `fetch` calls, their headers and JSON bodies are left out, and so are `toast` notifications and `console` output. Remote replies are input values.
- **Reply delay.** The chatbot's `response_delay` wait is not modelled. The open animation timer is not modelled either.
- **Timestamps.** Messages carry no `Date` timestamp.
- **Interleaving.** Each chat handler's synchronous part runs to completion, and a message's reply is a separate event. A start is still one step: its request and its reply are not split, so a send cannot overlap a start.
- Chatbot.ChatController.EndConversation: an end is one step too. The source clears the conversation in `finally`, only after the end request settles. While that request is in flight, reopening the window finds the old id and starts nothing, and a send in the old conversation is accepted and then wiped by the late clear. The model clears at once, so it does not capture that window.
- **Ordering of parallel reads.** `Promise.all`'s ordering of concurrent requests is not modelled. When both list reads fail, the groups read's error is the one reported.
- **Browser storage.** `localStorage` reads are left out, and the model takes their values as inputs. `JSON.parse` is also left out; the user object in the session hook and the stored KPI export are taken already parsed.
- **Browser side effects.** `window.print` and the `document.location` assignment are not modelled. Navigation is the returned URL.
- Text.IntToString: integers are unbounded. JavaScript numbers are doubles, and `String(n)` switches to exponent form (`1e+21`) from 10^21 in magnitude, so the decimal form is JavaScript's only below that.
- Text.NumberOfIntToString: proved for every integer. In JavaScript `Number(String(n)) === n` holds for every number, but an integer beyond 2^53 in magnitude is not in general a JavaScript number, so the model's statement covers integers JavaScript cannot hold.
- Text.ParseIntOfIntToString: proved for every integer; JavaScript agrees only for the safe integers, and `parseInt(String(1e21))` is 1 because of the exponent form.
- Surveys.FailedCheckKeepsGroupId: follows from `Text.ParseIntOfIntToString`, so it carries the same range limit for group ids.
- **Text.Lower:** lower-cases ASCII letters only, while `toLowerCase` is Unicode.
- **Text.Trim:** the whitespace set is a fixed list of the common characters, not the full list JavaScript uses.
- **Text.JsNumber:** `Number` is modelled for decimal integers only. Hex, exponents, fractions and `Infinity` read as NaN here.
- **Text.JsParseInt:** `parseInt` is modelled for base 10 only. With no radix, JavaScript reads a `0x` or `0X` prefix as hexadecimal (`parseInt("0x1A")` is 26), while the model reads such text as 0.
- **PlanTable.SearchParam:** there is no percent-decoding and no `#`-fragment handling. The URLs the table builds need neither.
- KpiExport.StatusColor: `colors[status]` looks the status up on an object literal, so a status naming an inherited `Object.prototype` member (`"constructor"`, `"toString"`, `"__proto__"`) yields that member rather than the attention class. The model gives the attention class for every status other than the two named ones.
- **KpiExport.Progress:** KPI numbers are exact reals rather than IEEE doubles.
- **Formatting.** `toFixed` and `Math.round` display formatting are not modelled, and neither is locale date formatting.
- **Chatbot.ChatController.StartConversation:** a failed start keeps the previous conversation id instead of clearing it. The source never writes it on failure.
- **Unmodelled files.** `QualityStandardsWidget` and `qualityService` are fetch-and-display glue around float averages. The plan, objective and KPI pages matter only for the arguments they pass to the table, and those are modelled.
- **Unmodelled page effects.** The "Nueva organización" form saves nothing. JSX, styling and animation are not modelled.
- Surveys.StatusFor: the status replies are a function of group id and event. The page makes one request per survey, so two surveys of the same event in a group get the same reply here; a server whose answer changed between those requests is not modelled.
- **Surveys.SurveysPage.LoadData:** a thrown value that is not an `Error` shows the text "Error desconocido al cargar datos"; the model carries only the failed read's message.
