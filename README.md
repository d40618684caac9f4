# Global HealthOps core, modelled in Dafny

Global HealthOps is a health-operations web application: a React front end
with a Redux store, an HTTP client instrumented for error tracking, and a
FastAPI back end with a health check, Sentry hooks and Pydantic request
schemas. This project models the deterministic logic of both halves and
proves what that logic promises.

Front end:

- the Redux slices for notifications, UI state and user preferences, as
  classes whose methods change their fields. The selectors are functions
  that read the store; the plain field selectors (`SelectAll`,
  `SelectSidebarOpen`, `SelectTheme`, `SelectCurrentView`) carry no
  contract of their own (`notifications_slice.dfy`, `ui_slice.dfy`,
  `preferences_slice.dfy`);
- the error classifier `handleError` and `showErrorNotification`. Their
  effects (clearing credentials, reporting to Sentry, dispatching a
  notification) are an ordered effect log or a change to the notifications
  store (`error_handler.dfy`);
- the error-tracking hook. Its context builders are pure functions over
  JavaScript values (`js_values.dfy`). The Sentry sink is an append-only
  event log in a class (`error_tracking.dfy`);
- the HTTP client's interceptors. The request-metrics table is a map field.
  Pending cleanup timers are a list, and `Tick(now)` fires the timers that
  are due. `isResponseCached` and `getResponseSize` are pure functions
  (`axios_instance.dfy`; `strings.dfy` models `parseInt`);
- the performance monitor: the web-vital rating, the per-name metric table
  (`GetMetrics` and `GetWebVitals` read it), the cumulative layout-shift
  loop and the Sentry messages it sends (`monitoring.dfy`);
- the resource library's search filter (`resource_library.dfy`, using
  `seqs.dfy`).

Back end:

- the health check. It covers one component check, the aggregation into an
  overall status, the system report, and the single-slot cache keyed by
  30-second buckets (`health.dfy`);
- the Sentry `before_send` sanitiser and the `capture_error` decorator
  (`backend_logging.dfy`);
- the patient and health-record schemas. Each is a parser from a raw JSON
  body to a record, built from the field readers in `schema_values.dfy`
  (`patient_schema.dfy`, `health_record_schema.dfy`);
- the load-test threshold checker (`analyze_performance.dfy`).

The environment is passed in as parameters:

- request ids and notification ids;
- clock readings (`Date.now`, `performance.now`, `time.time`, `datetime.now`);
- system-information snapshots;
- performance entries;
- psutil readings;
- how long a check function runs and how it ends;
- the `TESTING` environment variable;
- the browser time zone;
- Python's `str()` of a non-primitive value, which is the `render` parameter.

Measured quantities are Dafny `real`s: latencies, rates, metric values, and
the clock readings of `performance.now`, `time.time` and the `Date.now`
timestamp of a system-information snapshot, which travels as a JSON number.
The following are `int`s because the code only ever holds whole numbers
there:

- HTTP statuses, byte counts and kilobyte sizes;
- the font size and notification hide durations;
- a notification's `createdAt`, a `Date.now` reading in milliseconds;
- ids and dates.

A field of the load-test summary can be a number, `null` or missing.
Comparisons treat `null` as 0 and a missing value as failing every
comparison, as JavaScript does.

`getSystemInfo` is called twice in `captureError`, `startErrorFlow` and
`endErrorFlow`: once by the operation and once more inside `addBreadcrumb`.
So each of those methods takes two snapshots, `si` and `crumbSi`. The
`flowStart` that `startErrorFlow` returns equals the timestamp of its
breadcrumb only when the two clock readings agree.
`ErrorTracking.FlowStartMatchesBreadcrumb` proves this both ways. It is
weaker than "always equal", which the code does not guarantee.

## Model

| member | source | states |
|---|---|---|
| NotificationsSlice.NotificationsState.constructor | frontend/src/store/slices/notificationsSlice.ts:17-19 | the store starts with no notifications |
| NotificationsSlice.FromPayload | frontend/src/store/slices/notificationsSlice.ts:26-30 | the new item carries the payload's type, message, title and auto-hide duration plus the supplied id and creation time |
| NotificationsSlice.NotificationsState.AddNotification | frontend/src/store/slices/notificationsSlice.ts:25-31 | exactly one item is appended at the end, earlier items unchanged and in order, and the latest-notification selector then returns it |
| NotificationsSlice.NotificationsState.RemoveNotification | frontend/src/store/slices/notificationsSlice.ts:32-34 | the list becomes the order-preserving filter of items whose id differs |
| NotificationsSlice.RemoveNotificationSpec | frontend/src/store/slices/notificationsSlice.ts:33 | no remaining item has the id; every other item keeps its multiplicity; the result is a subsequence of the list |
| NotificationsSlice.RemoveAbsentId | frontend/src/store/slices/notificationsSlice.ts:33 | removing an id no item has leaves the list unchanged |
| NotificationsSlice.RemoveTwice | frontend/src/store/slices/notificationsSlice.ts:33 | removing the same id twice equals removing it once |
| NotificationsSlice.RemoveUndoesAdd | frontend/src/store/slices/notificationsSlice.ts:25-34 | removing the id of a just-added item whose id was fresh restores the list |
| NotificationsSlice.NotificationsState.ClearAllNotifications | frontend/src/store/slices/notificationsSlice.ts:35-37 | the list is empty from any state |
| NotificationsSlice.Latest | frontend/src/store/slices/notificationsSlice.ts:47-48 | the last item when there is one, undefined (None) for an empty list |
| NotificationsSlice.NotificationsState.SelectLatest | frontend/src/store/slices/notificationsSlice.ts:47-48 | the selector reads the last item of the store's list |
| UiSlice.UiState.constructor | frontend/src/store/slices/uiSlice.ts:13-18 | sidebar open, light theme, view "dashboard", no loading flags |
| UiSlice.UiState.ToggleSidebar | frontend/src/store/slices/uiSlice.ts:24-26 | sidebarOpen is negated and nothing else changes |
| UiSlice.ToggleTwice | frontend/src/store/slices/uiSlice.ts:24-26 | toggling twice restores the whole state |
| UiSlice.UiState.SetTheme | frontend/src/store/slices/uiSlice.ts:27-29 | only the theme changes |
| UiSlice.UiState.SetCurrentView | frontend/src/store/slices/uiSlice.ts:30-32 | only the current view changes |
| UiSlice.UiState.SetLoading | frontend/src/store/slices/uiSlice.ts:33-38 | the selector then returns the flag for that key; every other key reads as before; other fields unchanged |
| UiSlice.LoadingFlag | frontend/src/store/slices/uiSlice.ts:49-50 | false for a key never set, the stored flag otherwise |
| UiSlice.UiState.SelectIsLoading | frontend/src/store/slices/uiSlice.ts:49-50 | the selector reads the loading flag of the store's dictionary |
| PreferencesSlice.PreferencesState.constructor | frontend/src/store/slices/preferencesSlice.ts:20-34 | language "en", format "MM/DD/YYYY", all notification channels on, no high contrast, font size 16, no reduced motion, time zone from the environment |
| PreferencesSlice.PreferencesState.SetLanguage | frontend/src/store/slices/preferencesSlice.ts:40-42 | only the language changes |
| PreferencesSlice.PreferencesState.SetTimezone | frontend/src/store/slices/preferencesSlice.ts:43-45 | only the time zone changes |
| PreferencesSlice.PreferencesState.SetDateFormat | frontend/src/store/slices/preferencesSlice.ts:46-48 | only the date format changes |
| PreferencesSlice.MergeNotifications | frontend/src/store/slices/preferencesSlice.ts:53 | each field present in the patch overwrites, each absent field keeps its value |
| PreferencesSlice.MergeNotificationsIdempotent | frontend/src/store/slices/preferencesSlice.ts:53 | merging the same patch twice equals merging once; the empty patch is a no-op |
| PreferencesSlice.MergeNotificationsCompose | frontend/src/store/slices/preferencesSlice.ts:53 | two successive merges equal one merge of the combined patch, the later patch winning |
| PreferencesSlice.PreferencesState.SetNotificationPreferences | frontend/src/store/slices/preferencesSlice.ts:49-54 | the notification group becomes the merge; every other field unchanged |
| PreferencesSlice.MergeAccessibility | frontend/src/store/slices/preferencesSlice.ts:59 | each field present in the patch overwrites, each absent field keeps its value |
| PreferencesSlice.MergeAccessibilityIdempotent | frontend/src/store/slices/preferencesSlice.ts:59 | merging the same patch twice equals merging once; the empty patch is a no-op |
| PreferencesSlice.PreferencesState.SetAccessibilityPreferences | frontend/src/store/slices/preferencesSlice.ts:55-60 | the accessibility group becomes the merge; notifications and every other field unchanged |
| PreferencesSlice.PreferencesState.ResetPreferences | frontend/src/store/slices/preferencesSlice.ts:61 | the initial state from any state |
| ErrorHandler.HandleError | frontend/src/utils/errorHandler.ts:13-72 | message, code and effects of each branch of the chain: 401, 422 with data, 5xx, other status, network failure, other Error, other value |
| ErrorHandler.HandleErrorEffects | frontend/src/utils/errorHandler.ts:19-67 | credentials are cleared iff the status is 401; at most one effect; a report iff a 5xx API error, a non-network Error or another value |
| ErrorHandler.HandleErrorCodes | frontend/src/utils/errorHandler.ts:13-72 | each code in both directions: exactly which inputs produce it |
| ErrorHandler.DetailOr | frontend/src/utils/errorHandler.ts:30-45 | the server's detail when it is a non-empty string, else the fallback |
| ErrorHandler.HttpCodeNamesStatus | frontend/src/utils/errorHandler.ts:46 | an HTTP_ code is "HTTP_" followed by digits that parse back to the status |
| ErrorHandler.FailedToFetchIsNetwork | frontend/src/utils/errorHandler.ts:52 | any message containing "Failed to fetch" is classified as a network failure |
| ErrorHandler.ErrorNotificationPayload | frontend/src/utils/errorHandler.ts:77-82 | type error, title "Error", auto-hide 5000, the handled message |
| ErrorHandler.ShowErrorNotification | frontend/src/utils/errorHandler.ts:74-85 | returns what handleError returns, with the same effects, and appends exactly one such notification |
| ErrorTracking.SystemInfoValue | frontend/src/hooks/useErrorTracking.ts:15-29 | the snapshot object carries its timestamp, and a memory entry only when the browser reports one |
| ErrorTracking.BreadcrumbData | frontend/src/hooks/useErrorTracking.ts:45-48 | the caller's keys, with systemInfo always replaced by the snapshot |
| ErrorTracking.MakeBreadcrumb | frontend/src/hooks/useErrorTracking.ts:33-50 | category defaults to "app", level to info; the timestamp equals the embedded systemInfo timestamp |
| ErrorTracking.ErrorTracker.constructor | frontend/src/hooks/useErrorTracking.ts:32 | the sink starts with no events |
| ErrorTracking.ErrorTracker.AddBreadcrumb | frontend/src/hooks/useErrorTracking.ts:33-51 | exactly one breadcrumb is appended to the sink |
| ErrorTracking.KeptResourcesSpec | frontend/src/hooks/useErrorTracking.ts:69-70 | exactly the fetch and XMLHttpRequest entries are kept, with multiplicity and in order |
| ErrorTracking.ResourcesValue | frontend/src/hooks/useErrorTracking.ts:71-76 | one {name, duration, startTime, initiatorType} per kept entry, in order |
| ErrorTracking.ErrorContext | frontend/src/hooks/useErrorTracking.ts:59-78 | error name/message/stack, systemInfo and performance replace same-named caller keys; every other caller key is kept |
| ErrorTracking.ErrorTracker.CaptureError | frontend/src/hooks/useErrorTracking.ts:53-92 | one "Error occurred" breadcrumb (category error, level error), then one capture with that context, in that order; level defaults to error |
| ErrorTracking.FlowStartContext | frontend/src/hooks/useErrorTracking.ts:96-100 | caller's keys plus flowStart (the snapshot time) and systemInfo |
| ErrorTracking.ErrorTracker.StartErrorFlow | frontend/src/hooks/useErrorTracking.ts:94-110 | returns that context and appends one "Starting <name>" flow breadcrumb |
| ErrorTracking.FlowStartMatchesBreadcrumb | frontend/src/hooks/useErrorTracking.ts:95-109 | flowStart equals the breadcrumb's timestamp iff the two clock readings agree |
| ErrorTracking.FlowDuration | frontend/src/hooks/useErrorTracking.ts:117 | end minus start for a non-zero numeric flowStart; undefined without a context or with a falsy flowStart |
| ErrorTracking.FlowDurationNonNegative | frontend/src/hooks/useErrorTracking.ts:117 | a flow ended no earlier than it started has a non-negative duration |
| ErrorTracking.FlowEndContext | frontend/src/hooks/useErrorTracking.ts:114-119 | caller's keys plus flowEnd, duration and systemInfo |
| ErrorTracking.ErrorTracker.EndErrorFlow | frontend/src/hooks/useErrorTracking.ts:112-129 | returns that context and appends one "Completed <name>" flow breadcrumb |
| ErrorTracking.ErrorTracker.AddUserInteraction | frontend/src/hooks/useErrorTracking.ts:131-138 | one interaction breadcrumb at level info |
| ErrorTracking.NetworkLevel | frontend/src/hooks/useErrorTracking.ts:144 | error iff the status is defined, non-zero and at least 400, info otherwise |
| ErrorTracking.NetworkData | frontend/src/hooks/useErrorTracking.ts:145-150 | method, url and status replace same-named caller keys; every other caller key is kept |
| ErrorTracking.ErrorTracker.AddNetworkBreadcrumb | frontend/src/hooks/useErrorTracking.ts:140-152 | one network breadcrumb with that level and data |
| JsValues.Override | frontend/src/hooks/useErrorTracking.ts:45-48 | object spread: the overriding keys win, every other base key is kept |
| Strings.ParseInt | frontend/src/utils/axiosInstance.ts:27 | parseInt in base 10: NaN (None) iff no digit follows the skipped white space and optional sign |
| Strings.ParseIntOfSpelling | frontend/src/utils/axiosInstance.ts:27 | any spelling of JavaScript white space, an optional sign, digits (leading zeros allowed) and a non-digit tail parses to the signed value of the digits |
| Strings.ParseIntOfIntToString | frontend/src/utils/axiosInstance.ts:27 | parsing the decimal spelling of any integer gives it back |
| AxiosInstance.RoundKb | frontend/src/utils/axiosInstance.ts:24-31 | Math.round(bytes / 1024): the nearest whole kilobyte, halves rounded up |
| AxiosInstance.GetResponseSize | frontend/src/utils/axiosInstance.ts:24-31 | with a non-empty content-length: NaN iff it has no digits, otherwise the kilobyte count nearest (within half a kilobyte) to the header's value; without one: the kilobyte count nearest to the serialized body's length |
| AxiosInstance.ResponseSizeOfDecimalLength | frontend/src/utils/axiosInstance.ts:25-28 | a decimal content-length n gives (n + 512) div 1024 kilobytes |
| AxiosInstance.EachMarkerMeansCached | frontend/src/utils/axiosInstance.ts:34-38 | an age header alone, x-cache HIT alone or cf-cache-status HIT alone marks a response cached, as does any age header |
| AxiosInstance.NoMarkerNotCached | frontend/src/utils/axiosInstance.ts:34-38 | without an age header and with neither cache header saying HIT, a response is not cached |
| AxiosInstance.CachedDependsOnMarkersOnly | frontend/src/utils/axiosInstance.ts:34-38 | only x-cache, cf-cache-status and age decide; every other header is irrelevant |
| AxiosInstance.OrUnknown | frontend/src/utils/axiosInstance.ts:117-118 | the value when it is a non-empty string, "unknown" otherwise |
| AxiosInstance.WithRequestId | frontend/src/utils/axiosInstance.ts:62-64 | the id is written into existing headers; nothing else in the configuration changes |
| AxiosInstance.CompletedOk | frontend/src/utils/axiosInstance.ts:109-113 | end time, duration = end − start, size, status and cached are set; start time kept |
| AxiosInstance.CompletedWithError | frontend/src/utils/axiosInstance.ts:139-141 | end time, duration and the response's status (undefined without a response) are set; size and cached untouched |
| AxiosInstance.DueIds | frontend/src/utils/axiosInstance.ts:129 | exactly the ids of timers due by now |
| AxiosInstance.FilteredSpec | frontend/src/utils/axiosInstance.ts:129 | exactly the timers not yet due stay pending, each as often as before and in their original order |
| AxiosInstance.MetricsInterceptor.constructor | frontend/src/utils/axiosInstance.ts:53-56 | an empty table, no timers, the registered tracker |
| AxiosInstance.MetricsInterceptor.OnRequest | frontend/src/utils/axiosInstance.ts:59-87 | exactly one entry holding only the start time is added under the id also written to X-Request-ID; no other key changes; one breadcrumb |
| AxiosInstance.MetricsInterceptor.OnRequestError | frontend/src/utils/axiosInstance.ts:88-99 | one configuration-error breadcrumb and a rejection; the table is untouched |
| AxiosInstance.MetricsInterceptor.OnResponse | frontend/src/utils/axiosInstance.ts:103-133 | known id: the entry is completed in place, one network breadcrumb, deletion scheduled 30000 ms later; unknown id: table, timers and sink unchanged |
| AxiosInstance.MetricsInterceptor.OnResponseError | frontend/src/utils/axiosInstance.ts:134-167 | known id: one failure breadcrumb, then the entry is deleted at once; unknown id: nothing changes; always rejected |
| AxiosInstance.MetricsInterceptor.Tick | frontend/src/utils/axiosInstance.ts:129 | due timers delete their entries and are dropped; every completed entry left is younger than the delay, and the scheduling invariant is preserved |
| Monitoring.GetRating | frontend/src/utils/monitoring.ts:148-164 | good strictly below the first threshold, poor from the second up, for FCP 1800/3000, LCP 2500/4000, FID 100/300, CLS 0.1/0.25 and TTFB 200/500; unknown metrics need improvement |
| Monitoring.GetRatingMonotone | frontend/src/utils/monitoring.ts:150-160 | a larger value never gets a better rating |
| Monitoring.GetRatingAtThresholds | frontend/src/utils/monitoring.ts:152-160 | a value exactly at a threshold falls into the worse bucket |
| Monitoring.WithMetric | frontend/src/utils/monitoring.ts:166-171 | the list for that name gains one entry at the end (starting from empty); other lists unchanged |
| Monitoring.PerformanceMonitor.constructor | frontend/src/utils/monitoring.ts:49-56 | an empty table, every vital zero, no messages |
| Monitoring.PerformanceMonitor.AddMetric | frontend/src/utils/monitoring.ts:166-171 | the table becomes that update; vitals and messages unchanged |
| Monitoring.PerformanceMonitor.ClearMetrics | frontend/src/utils/monitoring.ts:181-183 | the table is empty |
| Monitoring.ReportLevel | frontend/src/utils/monitoring.ts:131 | warning iff the rating is poor, info otherwise |
| Monitoring.PerformanceMonitor.ReportWebVital | frontend/src/utils/monitoring.ts:125-138 | the rated value is added to the table, then one "Web Vital: <metric>" message at that level |
| Monitoring.PerformanceMonitor.OnLayoutShifts | frontend/src/utils/monitoring.ts:84-94 | the CLS vital becomes the sum of the values of shifts without recent input, and it is reported |
| Monitoring.ClsSumProperties | frontend/src/utils/monitoring.ts:85-91 | the score equals the score of the batch with every recent-input shift removed, wherever those sit; a batch of recent-input shifts only scores 0; non-negative shifts give a non-negative score |
| ResourceLibrary.FilteredResourcesSpec | frontend/src/pages/ResourceLibrary/index.tsx:54-59 | every shown resource matches the term case-insensitively (ASCII case mapping) in title or description and the category (unless "all"); every matching one is shown with its multiplicity; order kept |
| ResourceLibrary.EmptySearchShowsAll | frontend/src/pages/ResourceLibrary/index.tsx:54-59 | an empty term with category "all" shows every resource |
| ResourceLibrary.RefilterIsIdentity | frontend/src/pages/ResourceLibrary/index.tsx:54-59 | filtering the result again changes nothing |
| ResourceLibrary.SearchIgnoresTermCase | frontend/src/pages/ResourceLibrary/index.tsx:55-56 | a term upper-cased with the ASCII case mapping finds the same resources |
| Health.CheckComponent | backend/app/core/health.py:48-81 | healthy with the details iff the check returns in time; a timeout, or a `TimeoutError` the check itself raises, is unhealthy with latency exactly 5000 ms and the timeout message; another exception is unhealthy with its text |
| Health.SynchronousChecksAreNotTimeLimited | backend/app/core/health.py:53-58 | a synchronous check is reported healthy however long it runs |
| Health.CoroutineLatencyBounded | backend/app/core/health.py:53-60 | a coroutine check that returns in time reports at most 5000 ms |
| Health.Overall | backend/app/core/health.py:120-125 | unhealthy iff some component is; degraded iff none is unhealthy and some is degraded; healthy otherwise |
| Health.OverallIsWorstComponent | backend/app/core/health.py:120-125 | no component is worse than the overall status, and some component reaches it |
| Health.SystemComponent | backend/app/core/health.py:97-112 | healthy with the readings when the probe succeeds, degraded with the error text when it raises; latency 0 |
| Health.GetHealth | backend/app/core/health.py:92-134 | the only component is "system"; the status is its aggregation; version, environment, timestamp and uptime from the inputs |
| Health.GetHealthNeverUnhealthy | backend/app/core/health.py:99-125 | the report is never unhealthy; healthy iff the probe succeeds |
| Health.Trunc | backend/app/core/health.py:152 | Python int() of a float truncates toward zero |
| Health.CacheKey | backend/app/core/health.py:152 | for a non-negative clock, the 30-second window that contains it |
| Health.CacheKeyWindows | backend/app/core/health.py:152 | readings in one window share a key; a reading a window later gets the next key |
| Health.HealthCache.constructor | backend/app/core/health.py:43 | the cache slot starts empty |
| Health.HealthCache.GetCachedHealth | backend/app/core/health.py:43-46 | a hit returns the remembered report and keeps the slot; a miss computes a report and replaces the single slot |
| Health.HealthCache.GetHealthStatus | backend/app/core/health.py:136-158 | the cached report for the clock's bucket |
| Health.CallsInOneWindow | backend/app/core/health.py:152-155 | two calls in one window return the same report |
| BackendLogging.SanitizeHeaders | backend/app/core/logging.py:69-73 | exactly the headers whose lower-cased name is not authorization, cookie or x-api-key remain, with their values |
| BackendLogging.SanitizeExtra | backend/app/core/logging.py:77-80 | same keys; str/int/float/bool/None values kept, every other value replaced by its string form |
| BackendLogging.SanitizeRequest | backend/app/core/logging.py:66-73 | the event is dropped iff the request's membership test raises or finds headers that are not a dict of dict headers; a dict request with dict headers is kept with exactly those headers sanitised; only the request entry may change, and any other kept event is unchanged |
| BackendLogging.SanitizeEventExtra | backend/app/core/logging.py:76-80 | only the extra entry may change; a non-dict extra drops the event |
| BackendLogging.BeforeSend | backend/app/core/logging.py:58-85 | the event is dropped iff TESTING is truthy, the request step raises or extra is not a dict; a kept event has the same keys, and entries other than request and extra are unchanged |
| BackendLogging.BeforeSendStripsHeaders | backend/app/core/logging.py:66-73 | outside test runs an event with dict request headers and a well-formed extra is sent, with the sanitised headers |
| BackendLogging.BeforeSendCoercesExtra | backend/app/core/logging.py:76-80 | outside test runs an event with a dict extra and a request step that does not raise is sent, with the coerced extra |
| BackendLogging.BeforeSendUnchanged | backend/app/core/logging.py:66-85 | an event with no request (or no headers) and no extra is sent unchanged |
| BackendLogging.BeforeSendFailures | backend/app/core/logging.py:64-83 | outside test runs, the event is dropped iff one of the shapes that make the sanitiser raise is present; every other event is sent |
| BackendLogging.BeforeSendIdempotent | backend/app/core/logging.py:69-80 | sanitising a sanitised event changes nothing |
| BackendLogging.SanitizeHeadersIdempotent | backend/app/core/logging.py:69-73 | filtering sanitised headers again removes nothing |
| BackendLogging.SanitizeExtraIdempotent | backend/app/core/logging.py:77-80 | coercing a coerced extra again changes nothing |
| BackendLogging.FirstRequest | backend/app/core/logging.py:102 | the first positional request argument, or None iff there is none |
| BackendLogging.CaptureError | backend/app/core/logging.py:97-118 | the wrapper ends as the endpoint did (same result, same exception); an Exception is captured exactly once with the request's details, nothing else is captured |
| BackendLogging.KeywordRequestIsNotAttached | backend/app/core/logging.py:102 | a request passed only by keyword is not attached to the report |
| SchemaValues.RequiredText | backend/app/schemas/patient.py:8-9 | a present string within the length bounds, else refused |
| SchemaValues.OptionalText | backend/app/schemas/patient.py:12-14 | absent (missing or null) is accepted; a present value must be a string within the bounds |
| PatientSchema.ParsePatientBase | backend/app/schemas/patient.py:6-18 | accepted iff names are 1..100 characters, a birth date is present, gender is exactly male, female or other, contact at most 20, address at most 500; the record carries the body's values, the optional ones absent exactly when the body leaves them out or null |
| PatientSchema.PatientBaseRequiredFields | backend/app/schemas/patient.py:8-11 | a body missing a name, the birth date or the gender is refused |
| PatientSchema.GenderIsCaseSensitive | backend/app/schemas/patient.py:11 | the pattern is anchored and case-sensitive: "Male" is refused |
| PatientSchema.ParsePatientUpdate | backend/app/schemas/patient.py:20-25 | every field may be absent; present names and gender keep the base constraints; each field of the update is the body's value, None exactly when absent |
| PatientSchema.EmptyUpdateAccepted | backend/app/schemas/patient.py:20-25 | the empty body is a valid update that sets nothing |
| PatientSchema.BaseBodyIsValidUpdate | backend/app/schemas/patient.py:6-25 | every body accepted as a full record is accepted as an update with the same values |
| PatientSchema.ParsePatient | backend/app/schemas/patient.py:27-38 | the base record plus a present integer id and boolean is_active |
| PatientSchema.ResponseNeedsId | backend/app/schemas/patient.py:29 | a body without an id is not a patient response |
| HealthRecordSchema.ParseRecordType | backend/app/models/health_record.py:9-15 | exactly the five values general, diagnosis, treatment, lab_result and prescription are record types |
| HealthRecordSchema.RecordTypeRoundTrip | backend/app/models/health_record.py:9-15 | every record type reads back from its value |
| HealthRecordSchema.ParseTreatmentBase | backend/app/schemas/health_record.py:7-18 | name and provider 1..200 characters, description and start date required, end date and notes optional; every field is the body's value |
| HealthRecordSchema.TreatmentRequiredFields | backend/app/schemas/health_record.py:10-14 | a treatment without description or start date is refused; dropping notes and end date keeps it valid |
| HealthRecordSchema.ParseTreatment | backend/app/schemas/health_record.py:20-24 | the base treatment plus the body's integer id and health_record_id and its status string |
| HealthRecordSchema.ParseList | backend/app/schemas/health_record.py:41 | a list is accepted iff every element is an accepted object, element by element |
| HealthRecordSchema.ParseHealthRecordBase | backend/app/schemas/health_record.py:30-37 | a record type, title 1..200, description and record date required, provider at most 200; every field is the body's value, the record type the enumeration member spelled by it |
| HealthRecordSchema.ParseHealthRecordCreate | backend/app/schemas/health_record.py:39-41 | the base record plus optional treatments, each a valid treatment |
| HealthRecordSchema.CreateRefusesInvalidTreatment | backend/app/schemas/health_record.py:41 | one refused treatment refuses the whole body |
| HealthRecordSchema.ParseHealthRecordUpdate | backend/app/schemas/health_record.py:43-48 | four optional fields; a present title is 1..200, a present provider at most 200; each is the body's value, None exactly when absent |
| HealthRecordSchema.UpdateIgnoresOtherKeys | backend/app/schemas/health_record.py:43-48 | an update depends only on its four fields |
| HealthRecordSchema.UpdateCannotChangeTypeOrDate | backend/app/schemas/health_record.py:43-48 | a record type or record date in an update body makes no difference |
| HealthRecordSchema.ResponseTreatments | backend/app/schemas/health_record.py:54 | a missing treatments list defaults to empty; a non-list is refused; a list is accepted iff every element is a valid treatment, giving them one for one in order |
| HealthRecordSchema.ParseHealthRecord | backend/app/schemas/health_record.py:50-54 | the base record plus id and patient_id, and the response's treatments list, which defaults to empty |
| AnalyzePerformance.ViolationsSpec | backend/tests/scripts/analyze-performance.js:36-52 | p95 reported iff > 500, median iff > 200, rate iff < 50, error rate iff > 0.1; in run order, at most four; each carries the value compared |
| AnalyzePerformance.AnalyzeResults | backend/tests/scripts/analyze-performance.js:36-70 | the pushes build exactly those violations; exit code 1 iff any, else 0 |
| AnalyzePerformance.MissingErrorsNeverViolates | backend/tests/scripts/analyze-performance.js:31-50 | a run without an errors metric never fails on the error rate |
| AnalyzePerformance.NullComparesAsZero | backend/tests/scripts/analyze-performance.js:38-50 | a null request rate counts as 0 and is reported; a missing one, and a null or missing p95, median or error rate, is never reported |

## Left out

- I/O and the SDKs: Sentry delivery, Redux dispatch plumbing, React rendering and `useState`, the console and Python logging output.
- `initializeAxiosInstance` can be called more than once, and each call registers another pair of interceptors. The model has one interceptor pair.
- Browser APIs: the other performance observers (paint, largest contentful paint, first input, navigation), the singleton `getInstance`, and how `getSystemInfo` reads the browser; only the layout-shift callback is modelled.
- The development-only console log in `reportWebVital`.
- The breadcrumb cap is a Sentry configuration value, enforced by the SDK, and is not modelled.
- Floating point: JavaScript numbers and Python floats are reals, with no claims about rounding, overflow or NaN beyond `parseInt` giving NaN.
- JavaScript key order in spread objects: records are maps, so the order of keys in an object is not modelled.
- An explicitly `undefined` field in a partial preferences payload, which overwrites in JavaScript, is treated as absent.
- `handleError` on an API error whose `data` is `null`, or whose `status` is not a number, is not modelled: `ApiError` carries an integer status and an object or no `data`.
- Strings.ToLower: ASCII-only case mapping; the Unicode case mapping of `toLowerCase`/`lower()` is not modelled.
- Strings.ToUpper: ASCII-only case mapping; the Unicode case mapping of `toUpperCase` is not modelled.
- ResourceLibrary.SearchIgnoresTermCase: proved for the ASCII case mapping only; with Unicode case mapping an upper-cased term can grow ("ß" becomes "SS") and then finds other resources, which the model does not capture.
- ErrorHandler.DetailOr: `detail` is modelled as an optional string. The back end adds no handler for request-validation errors, so a 422 carries the framework's default body, whose `detail` is a list of error objects. `detail || 'Validation error'` then returns that list as the message, even an empty one, because an array is truthy; the model cannot express a non-string `detail`.
- UiSlice.LoadingFlag: the loading flags are a map. In the source, `isLoading[key]` also finds members inherited from `Object.prototype`, so a key such as `constructor` or `toString` reads as a function, which is truthy; the model reads false for those keys.
- ErrorTracking.FlowDuration: a truthy non-numeric `flowStart` other than a boolean or null gives NaN without modelling JavaScript's string-to-number coercion.
- Email validation (`EmailStr`), date and date-time parsing, and Pydantic's type coercion belong to the library: a raw value is accepted only when it already has the field's type.
- Health.CheckComponent: a check whose result is neither a dict nor None, which Pydantic would refuse inside the same `try`, is not modelled.
- Health.CheckComponent: an exception that is not an `Exception` (a `BaseException` such as `asyncio.CancelledError` or `KeyboardInterrupt`) propagates out of `check_component`; the model treats every raised exception as caught and reported unhealthy.
- Health.CheckComponent: a coroutine run of exactly 5 seconds is taken to finish; `wait_for`'s behaviour at the boundary is not modelled.
- The settings loader, `psutil` and the clocks behind `_get_health` are inputs; a failure of `get_settings` is not modelled.
- BackendLogging.BeforeSend: the event dict is changed in place even when a later step raises and the event is dropped; the model returns a new value, so that aliasing is not captured.
- BackendLogging.CaptureError: `logger.exception` output and the Sentry scope push are not modelled; the capture log records the exception and the request details.
- The texts of the analysis's violation messages and summary lines, which depend on JavaScript number formatting, are not modelled. Reading the results file and a summary missing `http_req_duration` or `http_reqs`, or with an `errors` metric that has no `values`, all of which make the script throw, are not modelled either.
- The performance monitor's `getMetrics` and `getWebVitals` return the live objects; the model returns their values.
