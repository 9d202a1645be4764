# Mini Local Business Dashboard — a verified model

This project models the logic of the Mini Local Business Dashboard. The
dashboard is a single-page client plus an Express "insight service". You type
a business name and a location. The service validates them and returns a
synthetic Google rating, a review count and an SEO headline. The client stores
the record, shows it with a row of stars, lets you regenerate the headline,
and derives a report from it. The client also tracks whether the service is
reachable.

Modules, one per source file:

- `Js` (`js.dfy`) — the platform pieces the code relies on.
  - `String.prototype.trim` over the ECMAScript whitespace set, and `includes`.
  - The decimal text of a status code.
  - What a `fetch` settles to, and what a `catch` receives.
- `BusinessContext` (`business_context.dfy`) — the reducer and its state.
  - `Store` is the `useReducer` holder.
- `BusinessForm` (`business_form.dfy`) — field validation, the submit sequence and the per-field update.
- `BusinessDisplay` (`business_display.dfy`) — the star row, the null guard and the headline regeneration.
- `ReportTemplate` (`report_template.dfy`) — tiers, scores, recommendations, strengths and improvements.
- `Server` (`server.dfy`) — the `/business-data` and `/regenerate-headline` handler bodies.
- `ServerStatus` (`server_status.dfy`) — the reachability hook's status transitions.
- `ServerManager` (`server_manager.dfy`) — the "started" latch, the two-probe start routine and the guarded request.
- `ApiClient` (`api_client.dfy`) — the result envelope, the error classifier and the request builders.
- `Dashboard` (`dashboard.dfy`) — properties that span the client and the service.

Conventions:

- Ratings are integer tenths (4.3 is `43`).
- `Math.round` is taken over exact reals.
- Each `Math.random()` call is an input in `[0, 1)`.
- Every network outcome is an input of type `Fetch<T>`: a response (status, body text, parsed JSON) or a rejection.
- The clock is an input wherever a time is recorded.

Code that mutates state is modelled as classes with `modifies` clauses:

- the store;
- the two components' own state;
- the status hook;
- the server manager.

Pure code is modelled as functions.

## Model

| member | source | states |
|---|---|---|
| BusinessContext.Reduce | src/context/BusinessContext.tsx:39-68 | For each action, which fields may change. Loading is false after every action except SET_LOADING and SET_FORM_DATA, and the error is cleared by SET_BUSINESS_DATA, UPDATE_HEADLINE and RESET_STATE. The record afterwards is absent, unchanged, the whole payload, or the previous record with only its headline replaced. |
| BusinessContext.SetLoadingOnlyLoading | src/context/BusinessContext.tsx:41-42 | SET_LOADING changes the loading flag and nothing else. |
| BusinessContext.SetErrorStopsLoading | src/context/BusinessContext.tsx:43-44 | SET_ERROR stores the message and stops loading. The record and the form are untouched. |
| BusinessContext.SetBusinessDataReplaces | src/context/BusinessContext.tsx:45-51 | SET_BUSINESS_DATA installs the whole payload and clears loading and error. The form is kept. |
| BusinessContext.SetFormDataOnlyForm | src/context/BusinessContext.tsx:52-53 | SET_FORM_DATA changes the form fields only. |
| BusinessContext.UpdateHeadlineOnlyHeadline | src/context/BusinessContext.tsx:54-62 | UPDATE_HEADLINE replaces only the headline of a present record (name, location, rating and reviews are kept). An absent record stays absent. Loading and error are cleared either way. |
| BusinessContext.ResetIsInitialAndIdempotent | src/context/BusinessContext.tsx:63-64 | RESET_STATE yields the initial state whatever the input, so two resets equal one. |
| BusinessContext.RecordProvenance | src/context/BusinessContext.tsx:45-62 | Take any sequence of actions from the initial state. The record is then absent, or it is the payload of some SET_BUSINESS_DATA. Its only possible change is a headline supplied by a later UPDATE_HEADLINE. It is never a partial record. |
| BusinessContext.Store.Dispatch | src/context/BusinessContext.tsx:75-76 | Dispatching replaces the state by the reducer's result. |
| BusinessForm.FieldError | src/components/BusinessForm.tsx:12-22 | A field has no error exactly when its trimmed value is at least 2 UTF-16 code units long (`length` counts code units). It gets the "required" message exactly when the value trims to empty, and the length message exactly when one code unit is left. |
| BusinessForm.BlankValueIsRequired | src/components/BusinessForm.tsx:12-13 | A whitespace-only value gets "… is required", never the length message. |
| BusinessForm.AstralCharacterIsLongEnough | src/components/BusinessForm.tsx:14-16 | A single code point above U+FFFF, such as an emoji, is one character but two code units, so it gets no error. |
| BusinessForm.ErrorsFor | src/components/BusinessForm.tsx:10-22 | The name's entry depends only on the name and the location's only on the location. No other key appears. |
| BusinessForm.ValidIffBothLongEnough | src/components/BusinessForm.tsx:24-25 | There are no errors exactly when both trimmed values are at least 2 UTF-16 code units long. |
| BusinessForm.Form.ValidateForm | src/components/BusinessForm.tsx:9-26 | Records the field errors. Returns true exactly when both trimmed values are at least 2 UTF-16 code units long. |
| BusinessForm.Form.Submit | src/components/BusinessForm.tsx:28-47 | Up to the `await`. An invalid form records its errors, dispatches nothing and sends nothing. A valid form sends the trimmed values. SET_LOADING true is followed by SET_ERROR null, which also clears `loading`, so the store is not loading while the request is pending. |
| BusinessForm.SubmitOutcome | src/components/BusinessForm.tsx:49-59 | SET_BUSINESS_DATA with the parsed record exactly when the response is `ok` and parses. Otherwise SET_ERROR with the fetch-failure message. |
| BusinessForm.Form.SettleSubmit | src/components/BusinessForm.tsx:49-60 | After the `await`, the outcome is reduced into the state the store holds at that moment, whatever was dispatched in between. |
| BusinessForm.Form.HandleSubmit | src/components/BusinessForm.tsx:28-61 | When nothing else is dispatched while its request is pending: an invalid form records its errors, dispatches nothing and sends nothing. A valid form sends the trimmed values. It then ends with the fetched record stored and no error, or the failure message with the old record kept. Loading is off in both cases. |
| BusinessForm.WithField | src/components/BusinessForm.tsx:66 | The edited field takes the new value and the other field is kept. |
| BusinessForm.Form.HandleInputChange | src/components/BusinessForm.tsx:63-73 | Only the edited form field changes, and only that field's error is cleared. |
| BusinessDisplay.Run | src/components/BusinessDisplay.tsx:44-48 | A counted push loop yields `max(0, n)` copies of one star. |
| BusinessDisplay.CeilStars | src/components/BusinessDisplay.tsx:61 | `Math.ceil` in tenths: the least whole star count not below the rating. |
| BusinessDisplay.RenderStars | src/components/BusinessDisplay.tsx:39-69 | The three loops build `floor(rating)` full stars, then one half star when the rating has a fractional part, then `5 - ceil(rating)` empty stars. |
| BusinessDisplay.StarRowHasFive | src/components/BusinessDisplay.tsx:41-66 | For a rating from 0 to 5 the row has exactly five stars. |
| BusinessDisplay.StarRowCounts | src/components/BusinessDisplay.tsx:41-66 | The counts: `floor(rating)` full, one half exactly when there is a fractional part, `max(0, 5 - ceil(rating))` empty. |
| BusinessDisplay.RunCounts | src/components/BusinessDisplay.tsx:44-48 | A run holds `max(0, n)` copies of its star and nothing else. |
| BusinessDisplay.StarRowOrdered | src/components/BusinessDisplay.tsx:44-66 | All full stars come before the half star, and that comes before the empty stars. |
| BusinessDisplay.Render | src/components/BusinessDisplay.tsx:9-13 | Nothing is rendered exactly when there is no record. Otherwise the card shows the record's own fields and its star row. |
| BusinessDisplay.RegenerateOutcome | src/components/BusinessDisplay.tsx:18-33 | UPDATE_HEADLINE with the returned headline exactly when the response is `ok` and parses. Otherwise SET_ERROR with the retry message. |
| BusinessDisplay.RegenerateKeepsRecord | src/components/BusinessDisplay.tsx:15-37 | Whatever the request does, the record stays present with its name, location, rating and reviews. The error is set exactly when the request failed. |
| BusinessDisplay.Display.BeginRegenerate | src/components/BusinessDisplay.tsx:15-21 | Up to the `await`: sets `regenerating` and asks with the shown record's own name and location. The store is untouched. |
| BusinessDisplay.Display.FinishRegenerate | src/components/BusinessDisplay.tsx:23-36 | After the `await`, `RegenerateOutcome` is reduced into the state the store holds at that moment, and `regenerating` is cleared. |
| BusinessDisplay.Display.HandleRegenerateHeadline | src/components/BusinessDisplay.tsx:15-37 | When nothing else is dispatched while its request is pending: asks with the record's own name and location and dispatches `RegenerateOutcome`. `regenerating` is false afterwards. |
| ReportTemplate.PerformanceLevel | src/components/ReportTemplate.tsx:18-23 | The tier counts how many of the thresholds 3.5, 4.0 and 4.5 the rating reaches. |
| ReportTemplate.PerformanceMonotone | src/components/ReportTemplate.tsx:18-23 | A higher rating never earns a lower performance tier. |
| ReportTemplate.EngagementLevel | src/components/ReportTemplate.tsx:25-30 | The engagement tier counts how many of the thresholds 75, 150 and 300 the review count reaches. |
| ReportTemplate.Competitive | src/components/ReportTemplate.tsx:36 | "Top 10%" exactly for Excellent, "Top 25%" exactly for Very Good, "Top 50%" for Good and Needs Improvement. |
| ReportTemplate.Round | src/components/ReportTemplate.tsx:34-35 | `Math.round` returns the integer within half a unit, with halves rounded up. |
| ReportTemplate.SeoScore | src/components/ReportTemplate.tsx:34 | `Math.round(85 + (rating - 3.5) * 10)` is 50 plus the rating in tenths. |
| ReportTemplate.LocalVisibility | src/components/ReportTemplate.tsx:35 | `Math.round(70 + reviews / 10)` is `70 + floor((reviews + 5) / 10)`. |
| ReportTemplate.ReportedVisibility | src/components/ReportTemplate.tsx:49 | The reported visibility never exceeds 100. It is 100 or the uncapped value. |
| ReportTemplate.ReportedVisibilityMonotone | src/components/ReportTemplate.tsx:35-49 | More reviews never lower the reported visibility. It reaches the cap exactly from 295 reviews on. |
| ReportTemplate.Recommendations | src/components/ReportTemplate.tsx:55-61 | Always five entries. The first three are selected by rating < 4.0, reviews < 100 and SEO score < 90 (that is, rating < 4.0), each in both directions. The last two are fixed. |
| ReportTemplate.Compact | src/components/ReportTemplate.tsx:67 | `.filter(Boolean)` never lengthens the list, and keeps only entries that were present. |
| ReportTemplate.CompactAppend | src/components/ReportTemplate.tsx:63-72 | Dropping empty entries distributes over concatenation, so source order is kept. |
| ReportTemplate.CompactMember | src/components/ReportTemplate.tsx:63-72 | An entry survives the filter exactly when it was present. |
| ReportTemplate.Strengths | src/components/ReportTemplate.tsx:63-67 | At most three strengths, each one of the three strength texts. |
| ReportTemplate.Improvements | src/components/ReportTemplate.tsx:68-72 | At most three improvements, each one of the three improvement texts. |
| ReportTemplate.StrengthsListed | src/components/ReportTemplate.tsx:63-67 | Each strength appears exactly when its condition holds. SEO ≥ 85 means rating ≥ 3.5. No strength at all means rating < 3.5 and fewer than 100 reviews. |
| ReportTemplate.ImprovementsListed | src/components/ReportTemplate.tsx:68-72 | Each improvement appears exactly when its condition holds. SEO < 80 means rating < 3.0. |
| ReportTemplate.SatisfactionExclusive | src/components/ReportTemplate.tsx:64-69 | "Strong customer satisfaction" is listed exactly when "Customer satisfaction needs attention" is not. |
| ReportTemplate.MakeReport | src/components/ReportTemplate.tsx:38-74 | The report echoes the record. Visibility is at most 100, the SEO score is 50 + rating, there are five recommendations, and at most three strengths and three improvements. |
| Server.Truthy | server/server.js:79 | `!v` is false for every value except the six falsy ones: `undefined`, `null`, `NaN`, `false`, `0` and the empty string. |
| Server.QueryString | server/server.js:156-157 | `String(v)` of a single parameter is the parameter itself. For a repeated key it is the values joined with commas, so each value occurs in it. A truthy non-array parameter never stringifies to the empty string. |
| Server.PickIndex | server/server.js:111-112 | `Math.floor(Math.random() * n)` is always a valid index. |
| Server.FillMentions | server/server.js:114-124 | A filled template contains the name if it has a name slot, and the location if it has a location slot. |
| Server.PoolsMentionBoth | server/server.js:114-122 | There are seven business templates and nine regenerate templates. Every one interpolates both the name and the location. |
| Server.PoolHeadlineMentions | server/server.js:159-171 | Any template of either pool, once filled, contains both values. |
| Server.HandleBusinessData | server/server.js:76-137 | The first failing check decides, in source order: missing/falsy, then non-string, then blank after trimming. The result is a success exactly when both fields are strings that are not blank after trimming. The success body is generated from the trimmed values. |
| Server.Generate | server/server.js:107-134 | For every draw: the rating is from the pool (4.1 to 4.8), and so is the review count (45 to 334). The name and location are echoed. The headline is one of the seven templates filled with them, and contains both. |
| Server.MissingIsNeverOk | server/server.js:79-86 | A field that is missing, `null` or the empty string gets a 400 "Missing required fields", whatever the other field holds, in either position. |
| Server.HandleRegenerateHeadline | server/server.js:145-158 | A 400 "Missing required query parameters" exactly when a parameter is missing or empty. |
| Server.RegeneratedHeadline | server/server.js:156-171 | Otherwise the headline is one of the nine templates filled with the trimmed, stringified values, and contains both. |
| Server.RegenerateAcceptsBlank | server/server.js:147-157 | Every pair of non-empty whitespace-only parameters is accepted here and filled in as empty strings. `/business-data` refuses the same values with "Empty fields not allowed". |
| ServerStatus.FlagsOf | src/hooks/useServerStatus.ts:62-65 | Each flag holds exactly for its status, so exactly one holds. |
| ServerStatus.ProbeStatus | src/hooks/useServerStatus.ts:19-29 | A probe ends `online` exactly when the response is `ok`, and `offline` otherwise. |
| ServerStatus.ServerStatusHook.constructor | src/hooks/useServerStatus.ts:6-7 | The status starts as `checking`, with nothing checked yet. |
| ServerStatus.ServerStatusHook.CheckServerStatus | src/hooks/useServerStatus.ts:9-31 | Passes through `checking`. Ends `online` exactly when the response is `ok`, otherwise `offline`. Returns whether it ended online. Records the time in both cases. |
| ServerStatus.ServerStatusHook.StartServer | src/hooks/useServerStatus.ts:33-41 | Passes through `starting`. Then its result and final status are those of one `checkServerStatus`. |
| ServerStatus.ServerStatusHook.Effect | src/hooks/useServerStatus.ts:44-45 | The effect's body is one `checkServerStatus`. It passes through `checking`, ends `online` exactly when the probe is `ok` (otherwise `offline`), and records the time. |
| ServerStatus.ServerStatusHook.Tick | src/hooks/useServerStatus.ts:48-52 | The interval re-probes only when `offline`. In any other status it changes nothing. |
| ServerManager.CheckServerHealth | src/utils/serverManager.ts:67-79 | Healthy exactly when the probe got a 2xx response. Any rejection, timeout included, is unhealthy. |
| ServerManager.StartServerSilently | src/utils/serverManager.ts:35-60 | True if the first probe succeeds, after one probe. Otherwise the result is the second probe's, after two probes. |
| ServerManager.ServerError | src/utils/serverManager.ts:105-107 | A non-`ok` response rejects with an `Error` whose message is "Server error (", then the status's decimal digits, then ")". The digits denote the status. |
| ServerManager.RequestOutcome | src/utils/serverManager.ts:93-109 | Once sent, the request settles with the parsed body exactly when the response is `ok` and parses. Otherwise it rejects with the fetch's own error, the status error, or the parser's `SyntaxError`. |
| ServerManager.Manager.EnsureServerRunning | src/utils/serverManager.ts:15-33 | Once started it answers true without probing. Otherwise it answers what the start routine answers, with at most two probes. The latch is set exactly when it was set already or the routine succeeded, so it is never reset. No start is left pending. |
| ServerManager.Manager.MakeApiRequest | src/utils/serverManager.ts:81-110 | When the server cannot be made to run, it rejects with "Server not available" and sends nothing. Otherwise it sends the request and settles as `RequestOutcome`. |
| ApiClient.ErrorMessage | src/utils/apiClient.ts:48-56 | The checks run in order: a non-`Error` gives "Request failed", `AbortError` gives "Request timed out", a message mentioning "fetch" or "NetworkError" gives "Cannot connect to server", and anything else gives its own message. |
| ApiClient.Settle | src/utils/apiClient.ts:16-60 | Success with the parsed body exactly when the response is `ok` and parses. Every other outcome becomes a failure whose message is the classified error. It is never both. |
| ApiClient.MakeRequest | src/utils/apiClient.ts:16-61 | The `try`/`catch` flow settles as `Settle`, and the URL is the base URL followed by the endpoint. |
| ApiClient.PrefixAddsNoMatch | src/utils/apiClient.ts:38-41 | The "Server error (status): " prefix neither adds nor hides an occurrence of "fetch" or "NetworkError". |
| ApiClient.ServerErrorReported | src/utils/apiClient.ts:38-56 | A non-`ok` response is reported as "Server error (status): body", unless the body mentions "fetch" or "NetworkError". In that case it is reported as "Cannot connect to server". |
| ApiClient.NetworkFailureReported | src/utils/apiClient.ts:52-53 | Any rejection other than an abort whose message mentions "fetch" or "NetworkError" (for instance "Failed to fetch") is a connection failure. |
| ApiClient.BusinessDataRequest | src/utils/apiClient.ts:67-78 | A POST to `/business-data` whose body is the trimmed name and location. Neither value has whitespace at either end, and each occurs in its input. |
| ApiClient.RegenerateRequest | src/utils/apiClient.ts:80-89 | A GET to `/regenerate-headline` whose query is `name` and then `location`, each the trimmed input. Neither value has whitespace at either end, and each occurs in its input. |
| ApiClient.RequestsIgnoreSurroundingWhitespace | src/utils/apiClient.ts:74-88 | Inputs that differ only by surrounding whitespace give the same request. |
| ApiClient.TestConnection | src/utils/apiClient.ts:63-94 | `checkHealth` goes to the base URL followed by `/health`. The answer is true exactly when the response came back `ok` with a JSON body. |
| Dashboard.SubmittedFormIsAccepted | server/server.js:79-105 | A form that passes `validateForm` is accepted by the service, and the service's echo is exactly the trimmed input. |
| Dashboard.GeneratedRatingStars | src/components/BusinessDisplay.tsx:39-69 | Every rating the service can generate renders as four full stars and a half. |
| Dashboard.GeneratedRecordReport | src/components/ReportTemplate.tsx:18-72 | A generated record is at least Very Good and in the top 25%, with "Strong customer satisfaction" and "Solid SEO foundation". Its only possible improvement is "Low review count", which appears exactly for 45 reviews. |
| Dashboard.RegenerateRacesSubmit | src/components/BusinessDisplay.tsx:15-37 | The regenerate button stays enabled while a submit is pending. If the new record arrives first, the headline asked for the old record is put on the new one, under the new business's name. |
| Js.Trim | src/components/BusinessForm.tsx:12 | `trim()` never lengthens a string, and the result neither starts nor ends with whitespace. |
| Js.TrimCharacterised | server/server.js:96-97 | The trimmed string is the infix of the original left after a whitespace prefix and a whitespace suffix. |
| Js.BlankIffAllWhitespace | server/server.js:99 | A string trims to empty exactly when it is all whitespace. |
| Js.TrimIdempotent | src/utils/apiClient.ts:76 | Trimming twice equals trimming once. |
| Js.TrimContained | server/server.js:96-97 | The trimmed string occurs in the original. |
| Js.NatToString | src/utils/apiClient.ts:40 | The decimal text of a status code: a non-empty run of digits with no leading zero that denotes the number. |
| Js.Utf16Length | src/components/BusinessForm.tsx:14 | `length` counts UTF-16 code units: between one and two per character. |
| Js.JoinContainsParts | server/server.js:156 | Every element of an array occurs in the text `String` makes of it. |

## Left out

- Network, timers and the clock. Every `fetch` outcome, probe result and current time is an input. The `setTimeout` waits, the abort timers and the `setInterval` scheduling are not modelled. A timeout appears only as a rejected outcome.
- `Math.random()`: each call is an input in `[0, 1)`. Uniformity is not modelled.
- Server timestamps, the `requestId` and the report's date and `reportId` are left out.
- Express plumbing is left out: CORS, body parsing, logging, `listen`, signal handling, the constant JSON routes (`/`, `/health`, `/api`, 404) and the 500 middleware.
- The error bodies' `details`/`received` fields are left out. The model keeps only the status code and the `error` text.
- React rendering is left out: JSX, styling and icons. React's scheduling of the status effect is left out. The effect's dependencies include `status`, so React runs its body again after every status change as well as on mount. The model has that body as `ServerStatusHook.Effect` and the interval as `ServerStatusHook.Tick`, but not when React calls them.
- server/auto-start.js and src/App.tsx are not part of this model.
- Floating point: ratings are integer tenths and rounding is exact. This agrees with JavaScript for the one-decimal ratings the service produces.
- JSON parsing is left out. A response carries its already-parsed value or the parser's message. The shape of a parsed body is assumed to be a business record, or a string for the regenerate headline.
- URL encoding is left out. `RegenerateRequest` keeps the query as an ordered list of pairs, and `Display.HandleRegenerateHeadline` returns the raw name and location it sends.
- The reducer's `default` branch is left out, because the action set is closed.
- Query values: an object-valued (bracketed) query parameter is modelled only through its string form "[object Object]".
- ServerManager.Manager.EnsureServerRunning: the branch that hands a concurrent caller the pending `startPromise` is not modelled. The method requires that no start is pending, which always holds for one caller at a time. The `getInstance` singleton is one shared `Manager`.
- ServerManager.StartServerSilently: the three wake-up requests each swallow their own rejection, and `checkServerHealth` never throws. So the outer `catch` (returning false) cannot be reached in this model, and it is not modelled.
- BusinessForm.Form.HandleSubmit: its contract covers only the run in which nothing else is dispatched while its request is pending. Interleavings with other dispatches are described by `Form.Submit` and `Form.SettleSubmit` and shown in `Dashboard.RegenerateRacesSubmit`.
- BusinessDisplay.Display.HandleRegenerateHeadline: its contract covers only the run in which nothing else is dispatched while its request is pending. Interleavings are described by `Display.BeginRegenerate` and `Display.FinishRegenerate`.
- ServerStatus.ServerStatusHook: the `lastChecked` value is the injected time, not a `Date`.
- The `ApiResponse` declaration is not valid TypeScript as written (`interface … = {`). It is modelled as the two-case envelope `ApiResponse` that the code builds.
