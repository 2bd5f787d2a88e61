# Waterer / DropQuery usage accounting, modelled in Dafny

The extension estimates how much water a user's AI queries consume. A content script
watches chat pages for queries and books an estimated volume for each into a ledger in
extension storage. A page-level hook around `fetch` and `sendBeacon` flags ChatGPT and
Google AI requests. The popup converts and formats the stored volumes, compares the day
against the stored `userData.averageUsage` and adds a small volume per answered survey
question. The popup seeds that average at 0 (popup.js:301, popup.js:461), so as written the
comparison takes its no-average branch (`Comparison.NoAverageBranches`). The
background worker sends periodic summaries and keeps a collective total.

This project models that accounting and classification logic and proves properties about it:

- `Wrappers.dfy`: an `Option` type for JavaScript's `undefined`.
- `JsString.dfy`: the string built-ins the code relies on. These are `includes`,
  `toLowerCase` (ASCII letters only), `trim`, and the relational operator `<`, which the
  code uses on ISO `YYYY-MM-DD` dates. The module proves that `<` behaves as a strict
  total order.
- `Detect.dfy` covers the content script's classifiers:
  - `detectAIModelFromDomain`, plus the background worker's `detectAIModelFromURL`;
  - `isLikelyAIQuery`;
  - the query-size estimates;
  - the Enter-key guard of the chat text box;
  - `checkForAIQuery`, whose walk over the service table is kept as two nested loops
    proved against a specification function.
- `Ledger.dfy`: the content script's `trackQuery`. A class holds the throttle timestamp
  and the two module-level counters. Storage is a value read in and written out.
- `Units.dfy` covers units and formatting:
  - the popup's unit conversion, labels and unit toggle;
  - the popup's display-unit resolution and magnitude tiers;
  - the simpler format that the content script and the background worker use.
- `Stats.dfy` covers the popup's statistics:
  - `normalizeUsageStats`, including NaN and non-number usage values;
  - `calculateAverageUsage`, modelled although no part of the extension calls it;
  - the once-per-question survey increments.
- `Comparison.dfy`: the branch and tier selection of `updateComparisonMessage`.
- `Notify.dfy`: the background worker's `checkNotifications` decision, its
  `generateNotificationMessage` and `updateCollectiveTotal`.
- `FetchHook.dfy`: the request predicates of the `fetch` and `sendBeacon` wrappers and
  the events they post.

Clock readings, storage contents, the DOM probe, the extension-context probe and the
availability of the notifications API are parameters. Dates such as "today", "seven days
ago" and "365 days ago" are passed in as strings. Volumes are exact reals.

Three facts about the code that the proofs make explicit:

- A value of exactly one gallon gets three decimals, since 1 is not below 1 (`Units.OneGallon`).
- Across `trackQuery` calls the daily value equals the volume of the day's records
  (`Ledger.DailyMatchesTodaysRecords`), but the survey increments write to the same storage
  key and break that (`Stats.SurveyBreaksDailyRecordSum`).
- Table order decides the service a request is booked under: a `/v1/chat` path on any host
  matches the OpenAI entry first (`Detect.V1ChatIsChatGPT`).

## Model

| member | source | states |
|---|---|---|
| `JsString.Contains` | background.js:46-61 | `includes`; no contract. Its meaning, an occurrence at some position, is in `JsString.ContainsIffOccurs`. |
| `JsString.ContainsIffOccurs` | background.js:46-61 | `includes` holds exactly when the needle occurs at some position of the text. |
| `JsString.ToLower` | background.js:45 | `toLowerCase` keeps the length and lowers each character on its own (ASCII letters only). |
| `JsString.ToLowerIdempotent` | background.js:45 | Lowering a lowered text changes nothing. |
| `JsString.TrimStart` | content.js:400 | The leading part `trim` removes is all whitespace, and what remains does not start with whitespace. |
| `JsString.TrimEnd` | content.js:400 | The trailing part `trim` removes is all whitespace, and what remains does not end with whitespace. |
| `JsString.Trim` | content.js:400 | No contract; it is `TrimEnd` after `TrimStart`, whose contracts give its meaning, and `JsString.TrimEmptyIffBlank` states when it is empty. |
| `JsString.TrimEmptyIffBlank` | content.js:400-401 | `trim` leaves nothing exactly when the text is blank. |
| `JsString.Less` | content.js:969 | JavaScript `<` on strings; no contract. `LessIrreflexive`, `LessAsymmetric`, `LessTransitive` and `LessTrichotomy` show it is a strict total order. |
| `JsString.LessIrreflexive` | content.js:969 | No date is before itself. |
| `JsString.LessAsymmetric` | content.js:969 | Of two dates, at most one is before the other. |
| `JsString.LessTransitive` | content.js:969 | Being before is transitive. |
| `JsString.LessTrichotomy` | content.js:969 | Of two different dates, exactly one is before the other. |
| `JsString.NotLessTransitive` | content.js:969 | Being on or after is transitive, so the week filter and date order compose. |
| `Detect.FirstMatchMeaning` | content.js:670-680 | For a priority table whose fallback is none of its tags, the answer is the fallback exactly when no needle of any row occurs, and otherwise the tag of the first row that matches. |
| `Detect.FirstMatchHit` | content.js:671-678 | The first matching row decides, whatever later rows say. |
| `Detect.FirstMatchMiss` | content.js:679 | With no matching row, the answer is the fallback. |
| `Detect.DetectAIModelFromDomain` | content.js:670-680 | No contract; its meaning is stated in `Detect.DomainDetection`. |
| `Detect.DetectAIModelFromURL` | background.js:44-62 | No contract; its meaning is stated in `Detect.UrlDetection`. |
| `Detect.DomainDetection` | content.js:670-680 | `detectAIModelFromDomain` matches the domain as given and answers `ai-service` exactly when none of its eight rows matches. It otherwise answers the tag of the first row that matches. |
| `Detect.UrlDetection` | background.js:44-62 | `detectAIModelFromURL` answers `ai-service` exactly when no needle of its fifteen rows occurs in the lowered URL. It otherwise answers the first matching row's tag, and letter case never changes the answer. |
| `Detect.TablesAgreeOnLeadingVendors` | background.js:46-50 | On a lower-case host recognised by one of the first five rows, the content script and the background worker give the same tag. |
| `Detect.IsLikelyAIQuery` | content.js:759-773 | Text longer than 10 characters, or a page with a chat element, always counts. Otherwise the text counts exactly when its lowered form contains one of the sixteen task phrases. |
| `Detect.EstimateQuerySizeFromText` | content.js:902-908 | The estimate is at least 20 ml and moves in 10 ml steps. The number of steps is the number of full 100-character blocks. |
| `Detect.EstimateMonotone` | content.js:902-908 | A longer text is never estimated smaller. |
| `Detect.TextEstimateBelowDefault` | content.js:896-908 | The text estimate is below the fixed 50 ml network estimate exactly for texts under 300 characters. |
| `Detect.EnterKeyRequest` | content.js:396-422 | A keydown requests tracking exactly for Enter without Shift, a non-blank box and a valid extension context. The request is for `chatgpt`, with the estimate of the trimmed text. |
| `Detect.CheckForAIQuery` | content.js:867-893 | The tracking request equals the specification `ClassifyRequest`: nothing for an empty URL, otherwise the first admitted service with 50 ml. |
| `Detect.ClassifyRequest` | content.js:867-893 | The specification of `checkForAIQuery`; no contract. `Detect.CheckForAIQuery` is proved equal to it, and `Detect.FirstAdmittedMeaning` states which service it names. |
| `Detect.ScanServices` | content.js:876-892 | The nested loops with early return find exactly the first service that admits the request. A service admits it if one of its lowered patterns occurs in the lowered URL and the request is POST-like or the service is OpenAI or Google. |
| `Detect.FirstAdmittedWitness` | content.js:876-892 | A tracked name belongs to a service that admits the request. |
| `Detect.FirstAdmittedMeaning` | content.js:876-892 | Nothing is tracked exactly when no service admits the request. Otherwise the name is that of the first service, in table order, that admits it. |
| `Detect.PrivilegedServices` | content.js:783-864 | In the service table, the `openai` entry is named `chatgpt` and the `google` entry `gemini`. |
| `Detect.NonPostOnlyMajorVendors` | content.js:881-888 | A request that is not POST-like is tracked, if at all, only as `chatgpt` or `gemini`. |
| `Detect.V1ChatIsChatGPT` | content.js:783-792 | Any URL containing `/v1/chat`, whatever the host, is booked as a 50 ml `chatgpt` query. |
| `Ledger.SumUsageAppend` | content.js:979 | The weekly `reduce` over a concatenation is the sum of the two parts. |
| `Ledger.RetainAppend` | content.js:968-969 | Pruning distributes over concatenation, so retained records keep their relative order. |
| `Ledger.RetainMeaning` | content.js:968-969 | Pruning keeps every record dated on or after the cut-off with its multiplicity, drops every other record and adds nothing. |
| `Ledger.RetainAll` | content.js:968-969 | When every record is within the week, pruning changes nothing. |
| `Ledger.RetainKeepsDay` | content.js:968-969 | Pruning never loses volume of a date that is itself within the week. |
| `Ledger.RetainChronological` | content.js:968-969 | Pruning keeps the records in date order. |
| `Ledger.TrackedStore` | content.js:944-980 | The four keys an admitted call writes; no contract. Its meaning is stated in `Ledger.TrackedStoreLedger`, `Ledger.WeeklyGrowth` and `Ledger.DailyMatchesTodaysRecords`. |
| `Ledger.TrackedStoreLedger` | content.js:944-980 | An admitted call writes all four keys. If a last record exists and is not dated today, the daily value is exactly the new volume; otherwise it is the old daily value plus the volume. The total grows by exactly the volume. Every retained record is within the week. When today is within the week, the records are the pruned old records followed by the new record. The weekly value is the sum over the retained records. |
| `Ledger.WeeklyIgnoresStoredValue` | content.js:979 | The written weekly value does not depend on the stored weekly value. |
| `Ledger.WeeklyGrowth` | content.js:957-979 | Every written ledger has weekly value equal to the sum of its records. When nothing expires, the weekly value grows by exactly the new volume. |
| `Ledger.DailyMatchesTodaysRecords` | content.js:950-980 | Across `trackQuery` calls on a ledger in date order, the daily value stays the volume of the records dated like the last record, and date order is kept. |
| `Ledger.Admitted` | content.js:923-928 | The one-second gate over a run of calls; no contract. Its meaning is stated in `Ledger.AdmittedSpaced`, `Ledger.AdmittedNone` and `Ledger.BurstRecordsOnce`. |
| `Ledger.AdmittedNone` | content.js:923-928 | Calls all within one second of the last admitted time record nothing. |
| `Ledger.AdmittedSpaced` | content.js:923-928 | Calls admitted by the one-second gate are at least 1000 ms after the previous admitted call. |
| `Ledger.BurstRecordsOnce` | content.js:923-928 | A burst of calls within one second of its admitted first call records exactly once. |
| `Ledger.Tracker.constructor` | content.js:9-10 | The counters start at 0, and so does the throttle timestamp, as the first call's `lastTrackTime` default. |
| `Ledger.Tracker.TrackQuery` | content.js:911-992 | An invalid context changes nothing. A call within 1000 ms of `lastTrackTime` is dropped and changes nothing. An admitted call sets `lastTrackTime` to its time. A rejected read then writes nothing and leaves the counters. Otherwise the call writes `TrackedStore` of what it read, sets `queryCount` to the retained record count and `totalWaterUsage` to the daily value, and reports whether the write succeeded. |
| `Units.ConvertToUnit` | popup.js:30-40 | Gallons times 3785.41 and ounces times 29.5735 give back the millilitres. Every other unit is the identity. |
| `Units.GetUnitLabel` | popup.js:42-52 | `gal` exactly for gallons, `oz` exactly for ounces, `ml` for everything else. |
| `Units.ConvertMatchesLabel` | popup.js:30-52 | A converted value read in the unit its label names is the original volume. |
| `Units.IndexOf` | popup.js:165 | `indexOf` gives the first position of the unit, and -1 exactly when it is absent. |
| `Units.NextUnit` | popup.js:164-166 | The next unit is always one of the three units. |
| `Units.ToggleOrder` | popup.js:163-166 | The cycle is ml, gallons, ounces, ml. An unknown unit goes to ml. |
| `Units.ToggleThreeTimes` | popup.js:163-166 | Three toggles return to the starting unit. |
| `Units.UnitSetting.constructor` | popup.js:10 | The preference starts at `ml`. |
| `Units.UnitSetting.ToggleUnit` | popup.js:163-173 | The preference steps to the next unit, and that unit is what is persisted. |
| `Units.UnitSetting.ResolveTargetUnit` | popup.js:687-700 | An explicit unit wins. Otherwise the unit is the stored unit, then the preference, then `ml`, and a stored unit that is one of the three becomes the preference. After a rejected read, only the preference or `ml` is used. |
| `Units.FormatWaterUsage` | popup.js:702-718 | No contract; its meaning is stated in `Units.FormatPreservesVolume`, `Units.MlTiers`, `Units.ConvertedDecimals` and `Units.OneGallon`. |
| `Units.FormatPreservesVolume` | popup.js:702-718 | In every tier, the number shown times the size of the unit shown is the input volume. |
| `Units.MlTiers` | popup.js:706-713 | In ml mode: ml below 1000, L below one million, m³ above, all with up to four decimals. L and m³ values are at least 1. |
| `Units.ConvertedDecimals` | popup.js:702-717 | In other modes the figure is the converted value under `GetUnitLabel` of the unit (`gal` or `oz`, `ml` for an unknown unit). Its decimals are 4 below 1, 3 below 10 and 2 otherwise. For gallons, 4 decimals means under one gallon. |
| `Units.OneGallon` | popup.js:716 | 3785.41 ml in gallon mode is shown as 1 with up to three decimals. |
| `Units.BasicFormat` | content.js:1070-1078 | No contract; its meaning is stated in `Units.BasicFormatTiers`. |
| `Units.BasicFormatTiers` | content.js:1070-1078 | The simple format keeps the volume and picks the same tier and value as the popup's ml mode. |
| `Units.BackgroundFormatAsWritten` | background.js:259-267 | No contract; `Units.BackgroundLabelGarbled` states how it differs from `Units.BasicFormat`. |
| `Units.BackgroundLabelGarbled` | background.js:259-267 | The background worker's text differs from the content script's exactly from one million millilitres up. There its label names no unit. |
| `Stats.NormalizeUsageStats` | popup.js:54-56 | Daily, weekly and total each take their stored value when it is a non-NaN number. Otherwise daily falls back to today's computed sum, and weekly and total to the sum over all records. A non-array `queries` counts as no records. |
| `Stats.ComputedDaily` | popup.js:568-571 | No contract; its meaning is stated in `Stats.ComputedNaN`, `Stats.NonNumberCountsAsZero` and `Stats.FallbacksMatchLedger`. |
| `Stats.ComputedWeekly` | popup.js:572-575 | No contract; its meaning is stated in `Stats.ComputedNaN`, `Stats.NonNumberCountsAsZero` and `Stats.FallbacksMatchLedger`. |
| `Stats.ComputedNaN` | popup.js:565-575 | A computed sum is NaN exactly when a counted record's usage is NaN. |
| `Stats.NonNumberCountsAsZero` | popup.js:569-574 | A record whose usage is not a number counts as 0 in both computed sums. Replacing its usage by the number 0 changes neither sum. |
| `Stats.NonNumberWeekly` | popup.js:572-575 | The weekly half: a non-number usage and the number 0 give the same computed weekly sum. |
| `Stats.NonNumberDaily` | popup.js:568-571 | The daily half: a non-number usage and the number 0 give the same computed daily sum. |
| `Stats.FallbacksMatchLedger` | popup.js:565-575 | On records the ledger wrote, the computed weekly value is the ledger's sum and the computed daily value is the volume of today's records. |
| `Stats.Round` | popup.js:682 | `Math.round` gives the integer within half of the value, with halves rounded up. |
| `Stats.CalculateAverageUsage` | popup.js:652-683 | No contract; its meaning is stated in `Stats.AverageBounds`, `Stats.AverageCapped`, `Stats.AverageNaN` and `Stats.UnknownAnswersNeutral`. |
| `Stats.UnroundedRange` | popup.js:658-681 | For non-negative screen time, 30 times the frequency, purpose and screen-time multipliers lies between 0 and 135 ml. |
| `Stats.AverageBounds` | popup.js:652-683 | For known, non-negative screen time, the average is a whole number between 0 and 135, and it never shrinks as screen time grows. |
| `Stats.AverageCapped` | popup.js:677-682 | From 12 hours of screen time up, the average equals the average at 12 hours. |
| `Stats.AverageNaN` | popup.js:677-682 | The average is NaN exactly when screen time is NaN or missing. |
| `Stats.UnknownAnswersNeutral` | popup.js:679-680 | Answers outside the multiplier tables weigh 1.0, like the purpose `other`. |
| `Stats.AddedForMark` | popup.js:605-617 | Marking an unmarked question adds exactly that question's volume. |
| `Stats.SurveyAddsAtMost` | popup.js:587-592 | However the survey is answered, it adds between 0 and 1.5 ml to the day. |
| `Stats.SurveyIncrements.constructor` | popup.js:594-603 | The survey starts from the stored daily value and markers. |
| `Stats.SurveyIncrements.AnswerChanged` | popup.js:605-622 | A question already marked changes nothing. Otherwise its volume is added to the stored daily value (unset counting as 0) and its marker is set. Either way the daily value stays the baseline plus exactly the marked questions' volumes. |
| `Stats.SurveyBreaksDailyRecordSum` | popup.js:611-616 | A counted answer breaks the equality of the daily value with the volume of the day's records. |
| `Comparison.UpdateComparison` | popup.js:721-937 | No contract; its branches are stated in `Comparison.NoAverageBranches`, `Comparison.PositiveAverageBranches` and `Comparison.NegativeAverageBranches`, and its tiers in the three tier lemmas. |
| `Comparison.NoAverageBranches` | popup.js:734-780 | With no average (0, undefined or NaN), the card is the first-query card exactly for zero usage, and educational otherwise. |
| `Comparison.PositiveAverageBranches` | popup.js:782-936 | With a positive average, the branches are exclusive and cover every day: positive iff at most 85 % of the average, caution strictly between 85 % and the average, negative above it, on track at exactly the average. |
| `Comparison.NegativeAverageBranches` | popup.js:782-936 | With a negative average, the card is positive below it, negative above it, on track at it, and never caution. |
| `Comparison.PositiveTiers` | popup.js:788-855 | Under budget, the saving selects villages from 500 L, three or more children from three children's needs, children from one, cats from one cat's, and the generic list below. Shelters, adults and dogs are never reached. |
| `Comparison.NegativeTiers` | popup.js:875-931 | Over budget, the card always names children: three or more when the excess is above two children's needs. The later tiers are never reached. |
| `Comparison.EducationalTiers` | popup.js:739-772 | With no average, cats are named from 250 ml, children between 236.588 ml and 250 ml, and a fraction below. Adults and dogs are never reached. |
| `Comparison.CautionChildren` | popup.js:857-861 | The caution card always speaks of at least one child. |
| `Notify.ShouldNotify` | background.js:194-213 | No contract; its meaning is stated in `Notify.DailySchedule`, `Notify.PeriodicSchedule`, `Notify.OtherFrequencySilent` and `Notify.SecondCheckSilent`. |
| `Notify.DailySchedule` | background.js:194-202 | With the daily frequency or none set, a notification is due exactly when none was recorded today. |
| `Notify.PeriodicSchedule` | background.js:203-212 | Weekly or yearly, a notification is due exactly when there is no last date or it is before the date 7 or 365 days back. |
| `Notify.OtherFrequencySilent` | background.js:199-213 | Any other frequency never notifies. |
| `Notify.SecondCheckSilent` | background.js:199-238 | After today's date is recorded, a second check on the same day is silent for every frequency. |
| `Notify.GenerateNotificationMessage` | background.js:243-257 | Daily, under average: the child count c satisfies 2000·c ≤ average − daily < 2000·(c+1). Daily, otherwise: the message reports the excess over the average. Weekly: saved = max(0, 7·average − weekly), never negative. Any other frequency: the yearly summary. |
| `Notify.ShownAmounts` | background.js:243-267 | The message's amounts as they are meant to be printed. There is one per amount, each read in the unit it names is the amount, and every label is `ml`, `L` or `m³`. |
| `Notify.ShownAmountsAsWritten` | background.js:243-267 | The amounts as the worker's own format prints them; no contract. `Notify.NotificationLabelGarbled` relates them to `Notify.ShownAmounts`. |
| `Notify.NotificationLabelGarbled` | background.js:259-267 | A notification prints as intended exactly when all its amounts are below one million millilitres. |
| `Notify.Notifier.constructor` | background.js:185-192 | The scheduler starts from the stored frequency and last date. |
| `Notify.Notifier.CheckNotifications` | background.js:184-240 | When `shouldNotify` holds, the message is built from the stored values (unset ones counting as 0) and shown if the API is available, and today is recorded. Otherwise nothing changes and nothing is shown. The frequency is never changed. |
| `Notify.UpdatesAccumulate` | background.js:158-161 | A run of updates on a total that starts unset or at t ends at t plus exactly the sum of the additions. |
| `Notify.CollectiveTotal.constructor` | background.js:158 | The accumulator starts from the stored total. |
| `Notify.CollectiveTotal.UpdateCollectiveTotal` | background.js:157-172 | The new total is the old total (0 when unset) plus the addition. It is stored and returned for the upstream record. |
| `FetchHook.FetchUrl` | fetch-hook.js:8 | No contract; `FetchHook.FetchEvents` states that the start event carries it. |
| `FetchHook.FetchMethod` | fetch-hook.js:9 | No contract; its default is stated in `FetchHook.MethodDefaultsToGet`. |
| `FetchHook.LooksLikeChatGPT` | fetch-hook.js:11 | No contract; with `FetchHook.LooksLikeGoogleAI` it decides the events, as `FetchHook.FetchEvents` and `FetchHook.OnlyPostClassified` state. |
| `FetchHook.LooksLikeGoogleAI` | fetch-hook.js:13 | No contract; see `FetchHook.LooksLikeChatGPT`. |
| `FetchHook.Tag` | fetch-hook.js:15-21 | A tag exists exactly when one family matches. ChatGPT is chosen whenever it matches, and Gemini only otherwise. |
| `FetchHook.FetchEvents` | fetch-hook.js:6-31 | One fetch posts at most one start, and it comes first. It posts a start exactly when the request looks like ChatGPT or Google AI. The start carries the request's own URL and the tag `Tag` gives: `chatgpt` when the ChatGPT test holds, else `gemini`. It posts an ok exactly for a classified request whose response is ok, and that ok has the start's URL and tag. |
| `FetchHook.BeaconEvents` | fetch-hook.js:40-58 | A beacon posts either nothing, or a start followed by an ok with the same tag, exactly when its URL matches a family. The start carries the beacon's URL and the tag `Tag` gives for the two URL tests. |
| `FetchHook.OnlyPostClassified` | fetch-hook.js:11-13 | A request whose method is not exactly `POST` posts nothing. |
| `FetchHook.MethodDefaultsToGet` | fetch-hook.js:8-9 | Without a method in `init` or the request, the method is `GET` and nothing is posted. |
| `FetchHook.ChatGPTTakesPrecedence` | fetch-hook.js:15-30 | A POST matching both families is tagged `chatgpt` in every event. |
| `FetchHook.BeaconLikeSuccessfulPost` | fetch-hook.js:41-55 | A beacon posts exactly what a successful fetch POST to the same URL posts. It uses the same patterns in the same order and ignores the method. |
| `FetchHook.NoOkWithoutOkResponse` | fetch-hook.js:24-30 | Without an ok response, only the start event is posted. |

## Left out

- DOM and UI: widget building, dragging, rendering, saved positions, the popup's show and hide, and survey submission. These are presentation.
- MutationObserver wiring, timers, intervals and listener attachment. Only the guards and classifiers they call are modelled.
- `chrome.storage`, `chrome.runtime.sendMessage`, alarms and the notifications API. Storage is a value read in and written out. The notifications API's availability is a boolean.
- The `TRACK_QUERY` message to the background, `showMessage` and the screen updates after a successful `trackQuery` write. These are messaging and rendering.
- Supabase requests, including the upstream record of `updateCollectiveTotal`. These are remote I/O with swallowed failures.
- Clock readings: `Date.now()`, `toISOString()` and date arithmetic. The instants and ISO date strings are parameters.
- The lost-update race between overlapping asynchronous `trackQuery` calls, and between them and the survey increments. This is concurrency.
- Message wording, the random message choice, singular and plural text, and the digit strings `toFixed` and `parseFloat` print. Only the tier and branch selection and the number of decimals are modelled.
- Floating point is not modelled: volumes are exact reals. NaN and non-number values are modelled where the popup tests for them (`normalizeUsageStats`, `calculateAverageUsage`). Infinity is not modelled.
- `text.length` counts UTF-16 code units, but the model counts characters. `toLowerCase` is modelled on ASCII letters only.
- The `fetch` wrapper's catch block re-issues a rejected fetch and posts no further events. Calling the original `fetch` and `sendBeacon` is not modelled, nor is the 100 ms delay before the beacon's ok event, apart from the event order.
- Ledger.Tracker.TrackQuery: stored values that are non-numbers, NaN or non-arrays are not modelled. The four ledger keys are numbers, a record list or unset, and JavaScript's `|| 0` and `|| []` defaults act on unset keys. `userData`, which the call reads only for `showMessage`, is not modelled.
- Detect.IsLikelyAIQuery: the `document.querySelector` probe for a chat or message element is a boolean parameter.
- Stats.CalculateAverageUsage: an answer naming an inherited object property such as `constructor` is treated as an unknown key with multiplier 1.0. In the source it finds a function and gives NaN.
- Detect.CheckForAIQuery: a URL object's `toString()` result is a given string. The `trackQuery` call it makes is returned as a request rather than run.
- generate-icons.js and generate-icons-simple.py are not part of this model. They generate images through external libraries.

## Findings

| source | as written | input that shows it | evidently intended | confidence | as-written member | corrected member |
|---|---|---|---|---|---|---|
| background.js:265 | The cubic-metre label is the three characters `mÂ³`: the UTF-8 bytes of `m³` read back as Latin-1. | `formatWaterUsage(1000000)` in a notification gives "1.00 mÂ³". | `m³`, as in content.js:1076 and popup.js:712 | high; not executed | `Units.BackgroundFormatAsWritten` (shown by `Units.BackgroundLabelGarbled`; in notifications `Notify.ShownAmountsAsWritten`, shown by `Notify.NotificationLabelGarbled`) | `Units.BasicFormat` (properties in `Units.BasicFormatTiers`; in notifications `Notify.ShownAmounts`) |
