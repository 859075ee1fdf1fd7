# Dravex leads: the SMS sequence engine, in Dafny

This project models the SMS automation core of the Dravex leads application and proves
properties of the model. The application is a Next.js and Supabase app for real-estate leads.
The model covers:

- **The sequence worker** (`POST /api/cron/run-sms-sequences`). It selects at most 20 due
  enrollments, earliest first. For each one it renders the step's template, picks a
  destination number and sends through the provider. It then moves the enrollment on: to the
  next step, to paused with an error, or to completed. It counts successes and failures.
- **The operator's writes to the same enrollment rows**: enroll, pause, resume and delete, and
  the three different "reset error" routes.
- **The SMS transport helper**: the choice of mock or live mode and the message log.
- **The automation analytics**: per-step reached and error counts, the overview counts, daily
  buckets, and the health checks with their worst-of rule.
- **The small pure rules of the pages**:
  - the dashboard filter, sort, KPI counters and numeric inputs;
  - the automation panel's badge and buttons;
  - CSV row normalisation and the import route's validation;
  - lead-stage validation.

The store and the provider are the classes `Database.Db` and `Database.Gateway`:

- `Db` holds the enrollment map, the step table, the property map and the append-only
  message log. Route methods change it in place.
- `Gateway` records every request handed to the provider.

Whatever the store or the provider answers (a failing read, a failing write, a provider
rejection) is a parameter of the operation. Time is an integer number of milliseconds, `now`.

Modules, one per source file (plus shared ones):

| module | file |
|---|---|
| `Base` | shared: `Option`, JavaScript truthiness, `trim`, `toLowerCase` on ASCII and the Kelvin sign, `includes`, decimal digits, `CountIf` |
| `Domain` | the rows of the tables, the `Patch` record given to `.update(...)`, enrollment states |
| `Database` | the store and the provider, as classes |
| `Template` | `renderTemplate` |
| `Cron` | the worker route |
| `Sms` | `src/lib/sms.ts` |
| `SequenceEnrollment` | `/api/sequence-enrollment` |
| `ResetEnrollmentError`, `AnalyticsErrorsReset`, `EnrollmentsResetError` | the three reset routes |
| `Lifecycle` | cross-route facts about the enrollment table |
| `AnalyticsSteps`, `AnalyticsOverview`, `AnalyticsTimeseries`, `Health` | the analytics and health routes |
| `AutomationSection`, `Dashboard`, `ImportPage`, `ImportProperties`, `LeadStage` | the pages and the import and lead-stage routes |

## Model

| member | source | states |
|---|---|---|
| Template.RenderIsSubstitution | src/app/api/cron/run-sms-sequences/route.ts:63-74 | The template is read as plain text, known `{{field}}` tokens and unknown `{{name}}` tokens. The chain of ten global replacements then equals replacing every known token by its column's text at once. Everything else stays verbatim. This holds when neither the text nor the values contain `{`. |
| Template.RenderVerbatim | src/app/api/cron/run-sms-sequences/route.ts:63-74 | A template holding none of the ten tokens is rendered unchanged. |
| Template.ReplaceAllAbsent | src/app/api/cron/run-sms-sequences/route.ts:65-74 | A global replace of a token that does not occur returns the string unchanged. |
| Template.ReplaceStep | src/app/api/cron/run-sms-sequences/route.ts:65-74 | One replacement turns the j-th placeholder into its value and touches no other segment. |
| Template.NullFieldIsEmpty | src/app/api/cron/run-sms-sequences/route.ts:65-74 | Example, one column at a time: a null column renders as "". |
| Template.ValueReplacedAgain | src/app/api/cron/run-sms-sequences/route.ts:63-74 | A placeholder's value is run through every later replacement in the chain, so the chain is not one simultaneous substitution. |
| Template.AddressHoldingCityToken | src/app/api/cron/run-sms-sequences/route.ts:65-66 | Example: an address holding `{{city}}` is sent with the city ("Austin") in its place. |
| Template.RenderHelloCity | src/app/api/cron/run-sms-sequences/route.ts:63-74 | Example: "Hello {{city}}" with city "Austin" (no other string column set) renders as "Hello Austin". |
| Cron.IsDevMode | src/app/api/cron/run-sms-sequences/route.ts:15-17 | Not dev mode exactly when NODE_ENV is "production" and SMS_DEV_MODE is not "true". |
| Cron.StepLookup | src/app/api/cron/run-sms-sequences/route.ts:120-125 | The step found has the enrollment's sequence and number. No step is found even though one exists only when several rows match. |
| Cron.NextStep | src/app/api/cron/run-sms-sequences/route.ts:231-238 | A step of the sequence with a number above the current one and the smallest such number. None exactly when there is no later step. |
| Cron.Destination | src/app/api/cron/run-sms-sequences/route.ts:174-187 | Dev mode uses the test number. Otherwise the trimmed seller phone is used when non-empty, else the test number. It is never empty when the test number is not. |
| Cron.Decide | src/app/api/cron/run-sms-sequences/route.ts:118-263 | The run aborts exactly when no update is issued. A message is logged exactly when a request is made. An abort makes no request. |
| Cron.DecideSends | src/app/api/cron/run-sms-sequences/route.ts:160-229 | The provider is called exactly when step, property, template and test number are all present, with the rendered body for the chosen destination. The run aborts exactly when only the test number is missing. A logged row has source "sequence" and status "sent" exactly on success. |
| Cron.DecideMissingStep | src/app/api/cron/run-sms-sequences/route.ts:127-138 | A missing step (or a failing lookup) sets `completed_at` to now, `next_run_at` to null and the error text. It counts as failed and logs nothing. |
| Cron.DecideMissingContent | src/app/api/cron/run-sms-sequences/route.ts:148-170 | A missing property or empty template only pauses the enrollment with the matching error. It counts as failed, logs nothing and keeps the step and schedule. |
| Cron.DecideSendFailure | src/app/api/cron/run-sms-sequences/route.ts:207-228 | A provider error logs one "failed" row with the provider's text (or "Sequence SMS failed"). The enrollment is paused with the same text, not advanced, and counted failed. |
| Cron.DecideSendSuccess | src/app/api/cron/run-sms-sequences/route.ts:189-206 | A success logs one "sent" row carrying the provider sid and counts as succeeded. The error is cleared and the pause flag kept. |
| Cron.DecideAdvance | src/app/api/cron/run-sms-sequences/route.ts:240-251 | With a later step, the enrollment moves to the nearest later step of its sequence, so the step strictly increases. |
| Cron.AdvanceApplied | src/app/api/cron/run-sms-sequences/route.ts:241-251 | The advance sets the step number, sets `next_run_at` to now + delay·60000 (a null delay counts as 0) and clears the error. Nothing else changes. |
| Cron.DecideComplete | src/app/api/cron/run-sms-sequences/route.ts:252-261 | With no later step the enrollment is completed now, with no next run and no error, at the same step. |
| Cron.ProcessOne | src/app/api/cron/run-sms-sequences/route.ts:119-263 | The loop body in place on `Db` and `Gateway`. It issues exactly the decided update (unless the write fails), appends exactly the decided row and request, and leaves steps and properties alone. |
| Cron.ProcessWithStep | src/app/api/cron/run-sms-sequences/route.ts:148-262 | Once the step is found, in place on `Db` and `Gateway`. The verdict is the decided one (a missing property or empty template pauses and fails), the decided update is issued unless the write fails, the decided row is logged unless the insert fails, the decided request is made, and nothing else changes. |
| Cron.SendOne | src/app/api/cron/run-sms-sequences/route.ts:172-262 | Once step, property and template are found, in place on `Db` and `Gateway`. The verdict is the decided one (abort without a test number), the decided update is issued unless the write fails, the decided row is logged unless the insert fails, the decided request is made, and nothing else changes. |
| Cron.Run | src/app/api/cron/run-sms-sequences/route.ts:115-268 | The batch folded in order. The table keeps its keys. Without an abort, succeeded + failed equals the batch size. There are no more rows logged than requests, and no more requests than enrollments. |
| Cron.RunStopped | src/app/api/cron/run-sms-sequences/route.ts:177-183 | Once the run aborts, the remaining enrollments change nothing. |
| Cron.RunUntouched | src/app/api/cron/run-sms-sequences/route.ts:118-268 | A row no enrollment of the batch refers to keeps its value. |
| Cron.RunRowOfHandled | src/app/api/cron/run-sms-sequences/route.ts:118-268 | In a batch of distinct rows, each handled row ends as its decided transition. |
| Cron.NotDueUntouched | src/app/api/cron/run-sms-sequences/route.ts:93-100 | A row that is not due is never changed by the run. |
| Cron.InactiveUntouched | src/app/api/cron/run-sms-sequences/route.ts:93-100 | Paused and completed enrollments are never processed. |
| Cron.Earliest | src/app/api/cron/run-sms-sequences/route.ts:99 | Returns a due row of the pool with the smallest `next_run_at`. |
| Cron.SelectDue | src/app/api/cron/run-sms-sequences/route.ts:93-100 | The selection holds only due rows (with `completed_at` null, not paused, `next_run_at` <= now), each once, in ascending `next_run_at` order, at most 20. No due row is skipped for a later one, and none at all is skipped when fewer than 20 are taken. |
| Cron.RunBatch | src/app/api/cron/run-sms-sequences/route.ts:115-268 | The `for` loop. The table, the log, the requests and both counters end exactly as `Run` says. |
| Cron.RunOnce | src/app/api/cron/run-sms-sequences/route.ts:76-274 | Missing provider config answers 500 and a wrong or missing secret answers 401. A failing selection answers 500. None of these touches the store or the provider. Otherwise the batch is a selection and the state is `Run`'s. The response is the counts (processed = batch size) or 500 when the test number is missing. |
| Sms.NormalizeModeSpec | src/lib/sms.ts:6-12 | Live exactly for "live", "prod" or "production" in any letter case. Null and "" give mock. |
| Sms.GetSmsMode | src/lib/sms.ts:14-15 | `SMS_MODE` decides when it is non-empty, else `SMS_DEV_MODE`. Live needs one of them set. |
| Sms.DevModeFlagIsMock | src/lib/sms.ts:6-15 | The flag value "true" selects mock mode. |
| Sms.LoggedRows | src/lib/sms.ts:61-76 | At most one row, and one exactly with a client, a `propertyId` and a working insert. It keeps the status and sid, and the source defaults to "manual". |
| Sms.LogMessage | src/lib/sms.ts:47-77 | Appends exactly `LoggedRows` to the message table. A failed insert is swallowed, and no other table changes. |
| Sms.PlanSend | src/lib/sms.ts:79-180 | Mock mode makes no provider call and gives sent=false with no sid. It logs one "sent" row with source `<source>-mock` or "mock" unless `logMock` is false (it defaults to true). Every live path logs exactly once: "sent" with the provider sid when sent, otherwise "failed" with no sid, the result's error text, and no sid in the result. Every logged entry carries the caller's to, from, body, propertyId and userId. The provider is called exactly with a from number and credentials. sent=true exactly on provider success, with its sid. The error texts are "From number not configured", "Twilio credentials not configured", and the provider's message or "SMS send failed". |
| Sms.SendSmsOrMock | src/lib/sms.ts:79-180 | In place on `Db` and `Gateway`: returns `PlanSend`'s result, gives the provider exactly the planned request and appends exactly the planned rows. |
| SequenceEnrollment.FirstStep | src/app/api/sequence-enrollment/route.ts:45-51 | A step of the sequence with the lowest number. None exactly when the sequence has no steps. |
| SequenceEnrollment.EnrollOutcome | src/app/api/sequence-enrollment/route.ts:20-91 | 400 without `propertyId` or `sequenceId`, 401 when not signed in, and 400 without a first step. The insert error passes through. A created row is at the first step, scheduled now + delay·60000, not paused. |
| SequenceEnrollment.EnrollStartsAtFirstStep | src/app/api/sequence-enrollment/route.ts:45-76 | When the sequence has steps, the new enrollment is at its lowest step number, active, and scheduled after the first step's delay. |
| SequenceEnrollment.Enroll | src/app/api/sequence-enrollment/route.ts:20-91 | POST in place: the table gains the new row exactly when the answer is Created, and is otherwise unchanged. |
| SequenceEnrollment.ResumedRunAt | src/app/api/sequence-enrollment/route.ts:153-157 | A set `next_run_at` is kept. A null one becomes now, unless the enrollment is completed. |
| SequenceEnrollment.ActionPatch | src/app/api/sequence-enrollment/route.ts:135-181 | Only "pause" and "resume" issue an update. Pause sets only `is_paused`. Resume clears it and sets `ResumedRunAt`. |
| SequenceEnrollment.ResumeMakesSchedulable | src/app/api/sequence-enrollment/route.ts:152-176 | A resumed enrollment that is not completed is scheduled, and due once its time has come. |
| SequenceEnrollment.PauseIsNeverDue | src/app/api/sequence-enrollment/route.ts:135-150 | A paused enrollment is never due. Pausing keeps the step and completion. |
| SequenceEnrollment.UpdateEnrollment | src/app/api/sequence-enrollment/route.ts:97-187 | PATCH: 400 without `enrollmentId` or `action`, 401 when not signed in, and 404 unless the caller owns the row. An unknown action gives 400. A failed write gives 500 with "Failed to pause/resume enrollment". Only the caller's row changes, and only on success. |
| SequenceEnrollment.DeleteEnrollment | src/app/api/sequence-enrollment/route.ts:193-236 | DELETE: 400 without `enrollmentId`, 401 when not signed in, and 500 when the delete fails. On success only the caller's row with that id is removed. |
| SequenceEnrollment.DeleteKeepsOthers | src/app/api/sequence-enrollment/route.ts:217-221 | Every other row, and every row of another user, is kept. |
| ResetEnrollmentError.FullResetEffect | src/app/api/automation/reset-enrollment-error/route.ts:60-68 | The reset clears `last_error` and `last_error_at`, unpauses and sets `next_run_at` to now. Nothing else changes. |
| ResetEnrollmentError.Reset | src/app/api/automation/reset-enrollment-error/route.ts:19-96 | 400 without an id, 500 on a failing fetch, 404 for an unknown id, and 500 on a failing update. On success the row with that id (any user's) takes the full reset. |
| AnalyticsErrorsReset.UnpauseEffect | src/app/api/automation/analytics/errors/reset/route.ts:27-33 | Only `is_paused` (false) and `next_run_at` (now) change. The error, step and completion stay. |
| AnalyticsErrorsReset.UpdateFailureText | src/app/api/automation/analytics/errors/reset/route.ts:43 | The store's message when non-empty, else "Failed to reset error". |
| AnalyticsErrorsReset.Reset | src/app/api/automation/analytics/errors/reset/route.ts:15-61 | 400 without an id and 500 on a failing update. Otherwise success whether or not a row matches, with the matching row unpaused and rescheduled. |
| EnrollmentsResetError.ClearErrorEffect | src/app/api/enrollments/reset-error/route.ts:27-30 | Only `last_error` is cleared. A paused row stays paused with its schedule. |
| EnrollmentsResetError.ResetError | src/app/api/enrollments/reset-error/route.ts:15-46 | 400 without an id and 500 on a failing update. Otherwise success whether or not a row matches, with only that row's error cleared. |
| Lifecycle.OperatorKeepsStepAndCompletion | src/app/api/automation/reset-enrollment-error/route.ts:60-68 | No operator update (pause, resume and the three resets) moves the step, the sequence or the completion. |
| Lifecycle.ResetsCompared | src/app/api/enrollments/reset-error/route.ts:27-30 | On a paused, errored, uncompleted row: the full reset makes it due now with no error. The unpause makes it due now with the error kept. The clear-error leaves it paused. |
| Lifecycle.CompletedIsAbsorbing | src/app/api/automation/reset-enrollment-error/route.ts:60-68 | After any interleaving of operator actions and worker runs, a completed enrollment keeps its completion and step and is never due. |
| AnalyticsSteps.SequenceOrder | src/app/api/automation/analytics/steps/route.ts:86-92 | Exactly the ids of the sequence rows, each once, so every sequence (with or without steps) gets one entry. |
| AnalyticsSteps.ErrorsAtMostReached | src/app/api/automation/analytics/steps/route.ts:108-114 | errors <= reached for every step. |
| AnalyticsSteps.ReachedAntitone | src/app/api/automation/analytics/steps/route.ts:107-110 | Within a sequence, a later step is reached by no more enrollments than an earlier one. |
| AnalyticsSteps.ForeignEnrollmentIgnored | src/app/api/automation/analytics/steps/route.ts:104-106 | An enrollment of another (or an unknown) sequence changes no count. |
| AnalyticsSteps.ReachedAtMostLength | src/app/api/automation/analytics/steps/route.ts:107-110 | `reached` is at most the number of enrollments. |
| AnalyticsSteps.SortAscending | src/app/api/automation/analytics/steps/route.ts:122-124 | The sort of distinct step numbers is strictly ascending with the same elements. |
| AnalyticsSteps.IndexSequences | src/app/api/automation/analytics/steps/route.ts:86-92 | The first `forEach`: one entry per sequence id in first-insertion order, with the name of the last row for that id. |
| AnalyticsSteps.AddSteps | src/app/api/automation/analytics/steps/route.ts:94-102 | The second `forEach`: each known sequence gets exactly the numbers of its steps, each once. Steps of unknown sequences are ignored. All counters start at 0. |
| AnalyticsSteps.CountOne | src/app/api/automation/analytics/steps/route.ts:104-117 | The inner `forEach` adds one to `reached` for each listed step at or below the enrollment's step (null counts as 0). It adds one to `errors` for the equal step when paused. |
| AnalyticsSteps.CountEnrollments | src/app/api/automation/analytics/steps/route.ts:104-117 | The third `forEach`: each step's counters end at the counts over all enrollments. |
| AnalyticsSteps.StepAggregation | src/app/api/automation/analytics/steps/route.ts:74-125 | One report per sequence, each listing its step numbers once, ascending, with `reached` (>= the step) and `errors` (paused at the step). |
| AnalyticsSteps.GetStepAnalytics | src/app/api/automation/analytics/steps/route.ts:15-137 | A failing read answers 500 with "Failed to load sequences/steps/enrollments". Otherwise one report per sequence id in first-insertion order, with that sequence's name, its step numbers once and ascending, and the exact reached and error counts. |
| AnalyticsOverview.WindowDays | src/app/api/automation/analytics/overview/route.ts:18-19 | 30 without a `days` parameter, else max(1, the number): the number itself when it is at least 1, exactly 1 when it is below. Never below 1. The number is NaN exactly when it does not parse. |
| AnalyticsOverview.WindowStart | src/app/api/automation/analytics/overview/route.ts:19-20 | `since` is now − days·86400000. It is undefined (the date formatting throws) exactly for a NaN window or a start outside the ±8.64e15 ms range of `Date`. |
| AnalyticsOverview.WindowInRange | src/app/api/automation/analytics/overview/route.ts:19-20 | From any present time, a window of at most 100,000,000 days has a start. |
| AnalyticsOverview.HugeWindowThrows | src/app/api/automation/analytics/overview/route.ts:19-20 | Example: a window of 1,000,000,000 days reaches before the first date, so its start throws. |
| AnalyticsOverview.InWindow | src/app/api/automation/analytics/overview/route.ts:20-25 | Exactly the messages created at or after `since`, never more than the table holds. |
| AnalyticsOverview.InWindowCounts | src/app/api/automation/analytics/overview/route.ts:20-25 | The window holds each message created at or after `since` as often as the table does, and no other message. |
| AnalyticsOverview.InWindowAppend | src/app/api/automation/analytics/overview/route.ts:20-25 | The window keeps the table's order: the window of two runs of rows is the two windows in turn. |
| AnalyticsOverview.Totals | src/app/api/automation/analytics/overview/route.ts:43-46 | sms is the message count. manual and sequence count the exact sources, and failed the exact status. manual + sequence <= sms. |
| AnalyticsOverview.Statuses | src/app/api/automation/analytics/overview/route.ts:69-76 | active = neither paused nor completed. paused ignores completion and completed ignores pause. errored is 0. active + #(paused or completed) = total. |
| AnalyticsOverview.GetOverview | src/app/api/automation/analytics/overview/route.ts:15-102 | A window whose start throws (NaN, or past the range of `Date`) gives 500 "Invalid time value". Each failing read gives its 500. An overview is answered exactly when the start exists and both reads succeed. It holds the window in days, the four totals (sms, manual, sequence, failed) counted over exactly the messages created since the start, and the enrollment counts. |
| AnalyticsTimeseries.SourcesWithinTotal | src/app/api/automation/analytics/timeseries/route.ts:49-51 | In each bucket manual + sequence <= total. |
| AnalyticsTimeseries.TotalPositiveIff | src/app/api/automation/analytics/timeseries/route.ts:43-49 | A day's total is positive exactly when some row falls on that day. |
| AnalyticsTimeseries.SortDays | src/app/api/automation/analytics/timeseries/route.ts:54-56 | Distinct days sorted ascending, with the same elements. |
| AnalyticsTimeseries.SumOverSorted | src/app/api/automation/analytics/timeseries/route.ts:54-56 | Sorting does not change the sum of the bucket totals. |
| AnalyticsTimeseries.AddRow | src/app/api/automation/analytics/timeseries/route.ts:43-52 | One `forEach` step keeps the bucket invariant. There is one bucket per day seen, keyed by the day, with that day's counts, and the totals sum to the rows seen. |
| AnalyticsTimeseries.BucketRows | src/app/api/automation/analytics/timeseries/route.ts:43-52 | The `forEach` over the rows: one bucket per day seen, keyed by the day, listed once, with that day's total, manual and sequence counts. |
| AnalyticsTimeseries.ListedSeries | src/app/api/automation/analytics/timeseries/route.ts:54-56 | The buckets listed by ascending day: one per day some row falls on, each with that day's total, manual and sequence counts, and totals adding up to the number of rows. |
| AnalyticsTimeseries.Timeseries | src/app/api/automation/analytics/timeseries/route.ts:38-56 | One entry per distinct day, ascending. Each entry holds that day's total, manual and sequence counts. The totals sum to the number of rows. |
| AnalyticsTimeseries.GetTimeseries | src/app/api/automation/analytics/timeseries/route.ts:15-65 | A window whose start throws (NaN, or past the range of `Date`) gives 500 "Invalid time value", and a failing read 500 "Failed to load timeseries". A series is answered exactly otherwise: one entry per distinct day of the window's rows, ascending, with that day's total, manual and sequence counts, totals summing to the number of rows, and the window's days. |
| Health.EnvName | src/app/api/automation/health/route.ts:15-20 | "production" and "test" are kept. Everything else is "development". |
| Health.OverallStatus | src/app/api/automation/health/route.ts:90-96 | Error exactly when some check errored. Degraded exactly when none errored and some is degraded. Ok otherwise. |
| Health.OverallStatusAppend | src/app/api/automation/health/route.ts:90-96 | The overall status of two lists together is the worse of theirs: the rule is a maximum. |
| Health.HttpStatus | src/app/api/automation/health/route.ts:105 | 500 exactly for Error, else 200. |
| Health.SupabaseCheck | src/app/api/automation/health/route.ts:37-46 | Error with the query's message, else ok with the count. |
| Health.CronCheck | src/app/api/automation/health/route.ts:49-64 | Error on a query error, ok with at least one enrollment, else degraded "No enrollments yet". |
| Health.TwilioCheck | src/app/api/automation/health/route.ts:67-88 | In live mode, error exactly when the sid, token or from number is missing. In mock mode, always ok. |
| Health.GetHealth | src/app/api/automation/health/route.ts:22-106 | The reported mode is `getSmsMode()`. The status is the worst-of rule over the checks, answered with 500 exactly on error. Missing database config gives one supabase error check and no cron check. Otherwise the checks are supabase, cron and twilioConfig, in that order. |
| Health.UnconfiguredChecks | src/app/api/automation/health/route.ts:27-33 | Example: without Supabase configuration there is no cron check, and the overall status is error whatever the provider check says. |
| Health.EmptyTableIsDegraded | src/app/api/automation/health/route.ts:49-96 | With the database configured, no enrollments and the other checks ok, the overall status is degraded (200). |
| AutomationSection.StatusLabel | src/components/properties/SmsAutomationSection.tsx:35-40 | Null exactly without an enrollment. "Completed" exactly when completed (even if paused), "Paused" when paused and not completed, else "Active". |
| AutomationSection.LabelIsState | src/components/properties/SmsAutomationSection.tsx:35-40 | The badge names exactly the state the worker's filter sees. |
| AutomationSection.NextSendText | src/components/properties/SmsAutomationSection.tsx:331-335 | The formatted `next_run_at` when set, else "N/A" if completed, else "Pending scheduling". |
| AutomationSection.Controls | src/components/properties/SmsAutomationSection.tsx:350-388 | No buttons exactly when completed. Cancel exactly when not completed. Resume exactly when paused and Pause exactly when not (both only when not completed). Reset Error exactly when `last_error` is non-empty. |
| AutomationSection.ToggleFlipsPause | src/components/properties/SmsAutomationSection.tsx:352-370 | The offered toggle flips the pause flag through the PATCH route and keeps step and completion. The badge moves between Paused and Active. |
| AutomationSection.HandleEnroll | src/components/properties/SmsAutomationSection.tsx:62-91 | No sequence selected gives "Select a sequence.", and not signed in gives "You must be signed in to enroll.". Neither sends a request. Otherwise it posts the property, sequence and user. |
| Dashboard.UnknownDomExcluded | src/app/page.tsx:739-741 | A property with null `dom` is dropped by any day limit below MAX_SAFE_INTEGER. |
| Dashboard.MissingStageIsNew | src/app/page.tsx:750-753 | A missing stage filters as "new". |
| Dashboard.PriceBoundsInclusive | src/app/page.tsx:737-738 | The price bounds are inclusive. |
| Dashboard.DefaultFiltersKeepAll | src/app/page.tsx:729-756 | With a blank search and every other control at its default, every property is kept. |
| Dashboard.FilterKept | src/app/page.tsx:729-756 | Exactly the kept properties, each as often as in the input. |
| Dashboard.InsertByScore | src/app/page.tsx:757 | Inserting into a list sorted by descending score keeps it sorted and one longer; the new head is the element or the old head. |
| Dashboard.InsertByScoreAdds | src/app/page.tsx:757 | The inserted list holds the old elements and the new one, each as often as before (multiset). |
| Dashboard.SortByScore | src/app/page.tsx:757 | Sorted by descending motivation score and a permutation of the input. |
| Dashboard.FilteredProperties | src/app/page.tsx:728-757 | Sorted by descending score and a permutation of the kept properties, so a sub-multiset of the input. |
| Dashboard.KpiStats | src/app/page.tsx:769-811 | The intended `kpiStats` loop. total is the count, each stage counter counts its stage (null is "new"), motivationCount the properties and spreadCount those with an ARV. The four stage counts plus the non-stage count equal total. |
| Dashboard.StagesAddUp | src/app/page.tsx:769-790 | When every stage is one of the four, the four stage counts sum to total. |
| Dashboard.KpiAsWrittenMiscounts | src/app/page.tsx:787-791 | As written, one property whose stage is "total" is reported as two. |
| Dashboard.KpiAsWrittenTotal | src/app/page.tsx:787-791 | As written, `total` is the number of properties plus those whose stage is "total". It is right exactly when no stage is "total". |
| Dashboard.AsWrittenAgreesOnStages | src/app/page.tsx:787-803 | On the four stages the written counters equal the intended ones. |
| Dashboard.DigitsOnly | src/app/page.tsx:860 | The digits of the input in order. It is empty exactly when there are none, and the identity on digit strings. |
| Dashboard.HandleNumberChange | src/app/page.tsx:853-863 | An empty input clears the control. Otherwise the number from the digits, so an input without digits gives 0. |
| Dashboard.NumberChangeReadsRendered | src/app/page.tsx:853-863 | A rendered number reads back as itself. |
| Dashboard.NonDigitIgnored | src/app/page.tsx:853-863 | A non-digit typed after a non-empty input changes nothing. |
| ImportPage.ToNumber | src/app/import/page.tsx:26-32 | Null for a missing or blank value, else the parse of the trimmed text. |
| ImportPage.StatusOf | src/app/import/page.tsx:36-38 | Pending exactly for "pending". Off Market exactly for the three spellings. Active otherwise. |
| ImportPage.NormalizeStatusSpec | src/app/import/page.tsx:34-39 | After trimming, "pending" and the three off-market spellings are recognised in any letter case (ASCII letters, and the Kelvin sign for `k`). Everything else, blank included, is Active. |
| ImportPage.KelvinSignOffMarket | src/app/import/page.tsx:34-37 | Example: "OFF MAR" + Kelvin sign + "ET" lower-cases to "off market" and reads as Off Market. |
| ImportPage.NormalizeStatusIdempotent | src/app/import/page.tsx:34-39 | Normalising a normalised status changes nothing. |
| ImportPage.BlankToNone | src/app/import/page.tsx:54-55 | Null exactly for a blank cell, else the trimmed text. |
| ImportPage.NormalizeRow | src/app/import/page.tsx:41-56 | Address parts trimmed. list_price is the parse or 0 (never null, and 0 when the column is missing). arv, beds, baths, sqft, dom and motivation_score are `toNumber` of their cells. The status is normalised. mls_id and seller_phone are the trimmed cell, or null exactly when blank. |
| ImportPage.KeepComplete | src/app/import/page.tsx:97-102 | Exactly the rows with non-empty address, city, state and zip, never more than given. |
| ImportPage.KeepCompleteCounts | src/app/import/page.tsx:97-102 | Each complete row is kept as often as it occurs, and no other row. |
| ImportPage.KeepCompleteAppend | src/app/import/page.tsx:97-102 | The filter keeps the order: filtering two runs of rows is filtering each in turn. |
| ImportPage.ParsedRows | src/app/import/page.tsx:97-102 | The complete normalised records of the file, and only those. |
| ImportPage.ParsedRowsCounts | src/app/import/page.tsx:97-102 | Each complete normalised record occurs as often as in the normalised file, and no other record. |
| ImportPage.ParsedRowsInOrder | src/app/import/page.tsx:97-102 | The parsed rows keep the file's order: parsing two runs of records is parsing each in turn. |
| ImportPage.AddressedRecordKept | src/app/import/page.tsx:97-102 | A record whose four address cells are non-blank is imported. |
| ImportPage.Preview | src/app/import/page.tsx:76 | The first min(10, n) rows. |
| ImportPage.HandleParse | src/app/import/page.tsx:78-111 | No file gives "Select a CSV file first.". A parser error gives its first message, or "Failed to parse CSV." when that is empty. Otherwise the parsed rows. |
| ImportProperties.FindInvalid | src/app/api/import-properties/route.ts:50-58 | The index of the first row missing an address part or price. None exactly when every row is valid. |
| ImportProperties.Import | src/app/api/import-properties/route.ts:31-99 | 500 without a client, 400 for missing or empty rows, 400 if any row is invalid, and 500 "Failed to import properties" if the insert fails. Failures insert nothing. Success inserts every row, one for one and in order, and reports `rows.length`. |
| ImportProperties.PageRowsAccepted | src/app/api/import-properties/route.ts:50-94 | Every non-empty batch the import page parses passes the route's checks and is inserted in full. |
| LeadStage.AllowedAreDashboardStages | src/app/api/properties/lead-stage/route.ts:5-10 | The allowed stages are exactly new, contacted, follow_up and dead: the dashboard's four. |
| LeadStage.Validate | src/app/api/properties/lead-stage/route.ts:17-79 | 500 without config, 400 for invalid JSON, 500 "Unexpected error" for a JSON `null` body, 400 without id or stage, and 400 for a stage outside the four. It passes exactly when none of these apply. |
| LeadStage.UpdateLeadStage | src/app/api/properties/lead-stage/route.ts:12-80 | The checks, then 500 "Failed to update lead stage" on a failing write. On success only that property's `lead_stage` changes. Every failure leaves the tables unchanged. |
| LeadStage.AcceptedStageIsAllowed | src/app/api/properties/lead-stage/route.ts:47-62 | A stage that passes the checks is one of the dashboard's four. |
| Database.Db.UpdateEnrollment | src/app/api/cron/run-sms-sequences/route.ts:128-135 | `.update(patch).eq("id", id)`: the row with that id takes the patch, and nothing else changes. |
| Database.Db.UpdateLeadStage | src/app/api/properties/lead-stage/route.ts:58-62 | Only that property's stage changes, and only if the property exists. |
| Domain.DueIsActive | src/app/api/cron/run-sms-sequences/route.ts:96-98 | Only an active (not paused, not completed) enrollment can be due. |

## Left out

- Database and provider clients, environment variables, cookies and sign-in. They are parameters: config values, the signed-in user as an `Option`, a failure flag or `Option` error per store call, and the provider's reply per enrollment.
- The clock. One `now` is passed per request, while the worker reads the clock again for each update (route.ts lines 131, 242 and 256). The model uses the same `now` throughout.
- ISO date text. Times are integers. The day key of the timeseries (`toISOString().slice(0, 10)`) is an uninterpreted function `dateKey`, and `toLocaleString` is a function `format`.
- `Number(...)`: `toNumber`'s parse, the `days` parameter and prices are integers given by an uninterpreted partial parse. NaN is `None`, and fractional numbers are not modelled.
- Fractional numbers in the store. The numeric columns of a property are integers, so the worker's template renders them with integer text. A `baths` of 2.5, rendered "2.5" by `toString` (route.ts:73), is not modelled.
- Floating point: `avgMotivation` and `avgSpread` of `kpiStats`.
- The worker's per-enrollment `catch` (line 264), which counts an unexpected exception as failed, and the route's outer `catch`. Store failures the model does know are flags instead.
- A request body that is not JSON, in the routes that read it without a guard. There `req.json()` throws and the outer `catch` answers 500. `import-properties` (route.ts:40, 95-97) answers "Server error". The others answer with the exception's message: the three `sequence-enrollment` handlers (route.ts:23, 100 and 196, with "Unexpected server error" as fallback), `automation/reset-enrollment-error` (route.ts:21, 87-92), `automation/analytics/errors/reset` (route.ts:17, 52-57) and `enrollments/reset-error` (route.ts:17, 40-42), these three with "Server error" as fallback. These models start from the parsed fields. Only the lead-stage route, which guards the parse, models an invalid body.
- A JSON `null` body in `automation/reset-enrollment-error` (route.ts:22): `body.enrollmentId` throws, and the outer `catch` answers 500. The model takes the id as an `Option` and answers 400 for a missing one. The lead-stage route's `null` body is modelled (`LeadStage.NullJson`).
- Template.RenderIsSubstitution: proved only for templates read as well-formed segments (plain text without `{`, and `{{name}}` tokens without braces in the name) and for properties whose address, city, state and zip hold no `{`. Outside these the chain of replacements is still modelled exactly by `RenderTemplate`, but it is not one simultaneous substitution: a value holding a later placeholder is replaced again. `ValueReplacedAgain` states this, and `AddressHoldingCityToken` shows it for an address holding `{{city}}`.
- The JavaScript `$` patterns in `String.prototype.replace` replacement text. Values are inserted literally.
- `toLowerCase` folds ASCII A–Z and the Kelvin sign (U+212A, which becomes `k`) only. These are the only characters it turns into ASCII; U+0130 lower-cases to `i` followed by a combining dot, which never equals an ASCII word. So the comparisons against the ASCII literals (the SMS mode, the import status) are exact. The dashboard search (`Dashboard.Keep`, page.tsx:731-735) is not: it compares the user's text with address text, and the page matches non-ASCII case pairs such as "É" and "é", which the model keeps apart. The model's lower-casing also never changes a string's length.
- Cron.RunOnce: the batch is a ghost out-parameter. The response and the state are stated against any selection the query may return, not one fixed order of equal `next_run_at` values.
- Dashboard.SortByScore: the sort is proved sorted and a permutation. The order of equal scores, which `Array.prototype.sort` keeps, is not stated.
- AnalyticsSteps.SortAscending and AnalyticsTimeseries.SortDays: the comparator sorts are modelled as insertion into a strictly ascending list. The inputs (record keys) are distinct, so this gives the same list.
- The analytics steps route answers a failing read with `details` and `code` besides `error`. Only the status and `error` are modelled, and the same holds for the other routes.
- LeadStage.UpdateLeadStage: `.single()` on the update is abstracted into `updateFails`. Whether a missing row is reported as an error is not modelled.
- The sequence-enrollment `POST` uses the insert error's own message. The model passes it through as `insertError`.
- `fromNumber!` in the worker becomes the configured number, or "" when absent (absence is refused earlier).
- The button captions "Working…" while a request is in flight, all other rendering, the toasts, and the fetch handlers of the pages past `handleEnroll`'s checks.
- CSV tokenising (PapaParse). The page's input is the parsed records and the parser's error messages.
- Lifecycle.CompletedIsAbsorbing: enroll and delete are not among the replayed events. Enroll adds and delete removes a row, so neither changes an existing completed row.
- The quiet-hours settings, duplicate-run locking and the CRUD routes around the core are not part of this model.

## Findings

| source | as written | input that shows it | evidently intended | confidence | as-written member | corrected member |
|---|---|---|---|---|---|---|
| src/app/page.tsx:787-791 | `stage in counts` accepts every key of the `counts` object, so a lead stage spelled like another counter ("total", "motivationCount", "spreadCount", "avgMotivation", "avgSpread") increments that counter | one filtered property with `leadStage` "total": the KPI strip reports total 2 | count a property only under one of the four lead stages | low: not executed; the lead-stage route only stores the four stages (LeadStage.AcceptedStageIsAllowed), so such a value must come from elsewhere | Dashboard.KpiAsWrittenMiscounts | Dashboard.KpiStats |
