# HeartAware triage and alert lifecycle, modelled in Dafny

HeartAware is a browser client with a mock back end, and this project models its core. A patient works through a five-step wizard: main symptom, three yes/no details, duration, phone, location. The report then goes to a risk classifier. A HIGH tier, forced by the emergency button, creates an alert for a community health worker (CHW). On a dashboard, the worker filters alerts by status, calls the patient (CONTACTING) and resolves the alert with a reason (RESOLVED). A one-minute inactivity watchdog force-submits a partly filled report when nobody touches the page.

What each module models:

- `Types` models the records.
- `Constants` models the state/LGA table, the option lists and the phone pattern.
- `ApiService` models the in-memory store as a class:
  - `mockAlerts`, `nextAlertId` and `mockCHWs` become its fields.
  - Each mock endpoint becomes a method.
  - Pure functions specify the status and resolution updates, the newest-first ordering and the login check.
- `InactivityHook` models the watchdog as a class over a model of the browser's queue of scheduled timeouts. This makes "at most one callback is pending" an invariant the methods keep.
- `PatientFormPage` models the wizard as a class whose handlers each make one atomic step over the component state. As in React, a handler reads the state of the render it was created in.
- `AlertCard` models the card's text and its enable rules.
- `DashboardPage` models the filter, the counts and the resolve dialog.
- `Lifecycle` proves that the card moves an alert forward only, and that RESOLVED is terminal for the card.
- `Scenarios` drives the wizard, the watchdog and the store together.

How the environment becomes inputs:

- Time is passed as `now`, an integer number of milliseconds.
- The classifier's random draw is the input `drawn`. The emergency flag overrides it.
- The random worker assignment is the input `workerIndex`.
- A fetch outcome is a `Result` value.

Five behaviours of the code are easy to miss, and the model keeps each of them:

- **Phone pattern.** The second digit after `+234` must be one of `7`, `8` or `9` (constants.ts:16). A `5` is rejected (`Constants.PhoneRejectsOperatorFive`).
- **NEW to RESOLVED.** The card allows this transition directly, because "Resolve" is enabled for NEW alerts. The store itself checks no transition order (`Lifecycle.StoreAcceptsReopening`).
- **Resolving twice.** Resolving an alert that is already resolved is neither rejected nor a no-op. It overwrites the resolution, the notes and the time (`ApiService.ResolveTwiceOverwrites`).
- **Re-submission after submitting.** The watchdog's listeners stay attached after a submission. Activity on the result screen re-arms the watchdog, and the next timeout sends the same report again (`Scenarios.ActivityAfterSubmissionResubmits`).
- **Empty resolution.** The page blocks a resolve without a reason. The store's `resolveAlert` accepts any resolution value it is given.

## Model

| member | source | states |
|---|---|---|
| Constants.NigerianStatesShape | constants.ts:4-10 | the table has five states and every state lists at least one LGA |
| Constants.OptionListsEnumerateEachValueOnce | constants.ts:12-14 | the symptom, duration and resolution option lists contain each enum value exactly once (3, 3 and 4 entries) |
| Constants.MatchesWholePointwise | constants.ts:16 | an anchored pattern of single-character classes matches exactly the strings of the same length whose every character its class accepts |
| Constants.PhoneCharacterization | constants.ts:16 | a phone is valid iff it has 14 characters, `+234`, then one of 7/8/9, then 0 or 1, then eight ASCII digits |
| Constants.PhoneRejectsOperatorFive | constants.ts:16 | no number whose first digit after +234 is 5 is accepted |
| Constants.PhoneAcceptsExample | constants.ts:16 | `+2348012345678` is accepted |
| Constants.PhoneRejectsOperatorOne | constants.ts:16 | `+2341012345678` is rejected (1 is not an operator digit) |
| Constants.PhoneRejectsLocalForm | constants.ts:16 | `08012345678` is rejected (no country code) |
| Constants.PhoneRejectsCountryCodeAlone | constants.ts:16 | the wizard's initial `+234` is rejected |
| ApiService.FindIndex | services/apiService.ts:89-90 | the result is the first position holding the id, and `None` exactly when no alert has it |
| ApiService.FoundIndexIsUnique | services/apiService.ts:89-90 | with distinct ids, the position found is the only one carrying the id |
| ApiService.StatusUpdateEffect | services/apiService.ts:86-95 | an unknown id fails with "Alert not found" and changes nothing; a known id sets that one alert's status to the value passed, whatever it was, and leaves every other alert untouched |
| ApiService.ResolveEffect | services/apiService.ts:98-110 | an unknown id fails and changes nothing; a known id makes that alert RESOLVED with the given resolution, notes and time, returns it and leaves the others untouched |
| ApiService.ResolveTwiceOverwrites | services/apiService.ts:101-107 | resolving again leaves the same store as resolving only the second time |
| ApiService.UpdatesKeepIds | services/apiService.ts:86-110 | neither update breaks the distinctness or the bounds of the ids |
| ApiService.InsertNewestFirst | services/apiService.ts:81 | inserting into a newest-first list gives a newest-first list with the same elements plus the new one |
| ApiService.SortNewestFirst | services/apiService.ts:81 | the sorted copy is ordered by `createdAt`, newest first, and is a permutation of the input |
| ApiService.ChwLogin | services/apiService.ts:114-122 | login succeeds iff the email is non-empty and the password has at least six characters; success returns a token stamped with the current time; failure returns "Invalid credentials. Please try again." |
| ApiService.SignedUpCanLogIn | services/apiService.ts:131-146 | credentials that sign-up accepts also pass login |
| ApiService.AlertStore.constructor | services/apiService.ts:5-36 | the store starts with the three workers, the two seeded alerts and the counter at 3 |
| ApiService.AlertStore.SubmitSymptoms | services/apiService.ts:43-73 | an emergency is HIGH, otherwise the tier is the classifier's draw; a HIGH tier puts exactly one NEW alert, holding the report, the number and the counter's id, at the front and advances the counter; any other tier changes nothing; the id invariant is kept |
| ApiService.AlertStore.GetCHWAlerts | services/apiService.ts:77-82 | the result is a newest-first permutation of the stored alerts, and the store is untouched |
| ApiService.AlertStore.UpdateAlertStatus | services/apiService.ts:86-95 | the new store and the outcome are those of `StatusUpdate`; the counter and the workers are unchanged |
| ApiService.AlertStore.ResolveAlert | services/apiService.ts:98-110 | the new store and the outcome are those of `Resolve`; the counter and the workers are unchanged |
| ApiService.AlertStore.ChwSignUp | services/apiService.ts:131-146 | sign-up succeeds iff the email and the name are non-empty and the password has six or more characters; success appends a worker with id `count + 1`; failure returns "Invalid sign-up data provided." and adds no worker; the alerts are untouched |
| InactivityHook.ClearTimeout | hooks/useInactivityTimer.ts:8-10 | clearing removes exactly the entries with that handle and ignores unknown handles |
| InactivityHook.InactivityTimer.constructor | hooks/useInactivityTimer.ts:4-5 | before mount, nothing is scheduled and the ref is null |
| InactivityHook.InactivityTimer.ClearCurrent | hooks/useInactivityTimer.ts:8-10 | the pending callback, if any, is cancelled |
| InactivityHook.InactivityTimer.ResetTimer | hooks/useInactivityTimer.ts:7-12 | the old callback is cancelled and exactly one new one is pending, due `timeout` from now, under a fresh handle that the ref records |
| InactivityHook.InactivityTimer.StopTimer | hooks/useInactivityTimer.ts:32-36 | the pending callback is cancelled and the ref keeps its stale handle |
| InactivityHook.InactivityTimer.Mount | hooks/useInactivityTimer.ts:14-22 | the listeners are attached and one callback is due `timeout` from now |
| InactivityHook.InactivityTimer.OnActivity | hooks/useInactivityTimer.ts:17-19 | while mounted, any activity event re-arms the callback for `timeout` from now; before mount or after unmount nothing changes |
| InactivityHook.InactivityTimer.Unmount | hooks/useInactivityTimer.ts:24-29 | the cleanup detaches the listeners and cancels the pending callback |
| InactivityHook.InactivityTimer.Elapse | hooks/useInactivityTimer.ts:11 | the callback fires iff one is pending and its deadline has passed; after firing, nothing is pending |
| PatientFormPage.ValidatedErrors | pages/PatientForm.tsx:43-73 | validating a step writes only that step's key, with the step's message on failure and "" on success; step 1 writes nothing; every other key is preserved |
| PatientFormPage.ContactStepAccepts | pages/PatientForm.tsx:59-62 | the contact step passes exactly for numbers the phone pattern accepts |
| PatientFormPage.InitialDataPassesNoStep | pages/PatientForm.tsx:18-20 | the empty report fails every one of the five steps |
| PatientFormPage.LocationStepExamples | pages/PatientForm.tsx:63-68 | coordinates alone pass, a state alone fails, and state with LGA and city passes |
| PatientFormPage.WithManualField | pages/PatientForm.tsx:151-155 | editing one location field sets only that field, and a new state also blanks the LGA |
| PatientFormPage.NewStateClearsManualLocation | pages/PatientForm.tsx:153-155 | after choosing a state, the manual location is incomplete until an LGA is chosen again |
| PatientFormPage.InactivityPayload | pages/PatientForm.tsx:32 | the forced submission sends the report with its location replaced by the GPS fix; without a fix, it sends the report unchanged |
| PatientFormPage.InitialDataStaysQuiet | pages/PatientForm.tsx:29-30 | an untouched wizard without a GPS fix sends nothing on inactivity |
| PatientFormPage.AutoSubmitArmedPassesSubmitGuards | pages/PatientForm.tsx:139-148 | whenever the auto-submit effect arms, the deferred submit passes its own guards; on the last step, while idle, a GPS fix alone arms it when manual entry is closed, and does not arm it when manual entry is open, although the location step passes |
| PatientFormPage.PatientForm.constructor | pages/PatientForm.tsx:17-41 | the first render is on step 0 with the empty report, no errors, idle, and the watchdog mounted and due in one minute |
| PatientFormPage.PatientForm.ValidateStep | pages/PatientForm.tsx:43-73 | the verdict is the step's validity and the errors become `ValidatedErrors` |
| PatientFormPage.PatientForm.NextStep | pages/PatientForm.tsx:75-79 | the wizard advances one step iff the current step validates, and never past the last step |
| PatientFormPage.PatientForm.PrevStep | pages/PatientForm.tsx:81 | the wizard moves back one step, never below step 0 |
| PatientFormPage.PatientForm.SetMainSymptom | pages/PatientForm.tsx:185 | only the main symptom changes |
| PatientFormPage.PatientForm.SetDetail | pages/PatientForm.tsx:196-198 | only the answered question changes |
| PatientFormPage.PatientForm.SetDuration | pages/PatientForm.tsx:206 | only the duration changes |
| PatientFormPage.PatientForm.SetPhone | pages/PatientForm.tsx:218 | only the phone changes |
| PatientFormPage.PatientForm.ToggleManualLocation | pages/PatientForm.tsx:240 | the manual-entry flag flips |
| PatientFormPage.PatientForm.HandleLocationChange | pages/PatientForm.tsx:151-157 | the location edit is applied, while the location error reflects the location as it was before the edit |
| PatientFormPage.PatientForm.ReceiveGeoFix | pages/PatientForm.tsx:131-137 | a fix is merged over the location, manual entry is closed and the location error is cleared |
| PatientFormPage.PatientForm.AutoSubmitEffect | pages/PatientForm.tsx:139-148 | the auto-submit arms exactly on the last step, with a usable location of the active kind, while idle |
| PatientFormPage.PatientForm.BeginSubmit | pages/PatientForm.tsx:83-89 | the submission starts iff the form is idle and the request is an emergency or the location validates; starting means submitting, a cleared tier and a stopped watchdog |
| PatientFormPage.PatientForm.FinishSubmit | pages/PatientForm.tsx:91-98 | the form ends as submitted, with the tier answered, or the previous tier if the call failed |
| PatientFormPage.PatientForm.Submit | pages/PatientForm.tsx:83-99 | at most one submission per report, starting iff the form is idle and the request is an emergency or the location validates; once started, the tier is HIGH on emergency and the draw otherwise, the result screen shows, and the watchdog is stopped; exactly one alert holding the report is added, and the counter advances, iff the tier is HIGH; a non-emergency request writes the location step's error entry; the step, the report, the fix, the manual and auto-submit flags are unchanged; a request that does not start changes neither the tier nor the watchdog |
| PatientFormPage.PatientForm.HandleInactivity | pages/PatientForm.tsx:29-39 | the forced submission happens iff the phone has more than four characters or a fix exists, whatever the form status; it adds one HIGH alert holding the inactivity payload, advances the counter, shows the result screen with HIGH and stops the watchdog; otherwise the store, the status, the tier and the pending callback are unchanged; the step, the report, the errors, the fix and both flags never change |
| PatientFormPage.PatientForm.TimerElapsed | pages/PatientForm.tsx:29-41 | the watchdog fires iff its deadline has passed, and then nothing is pending; a tick before the deadline keeps the pending callback; a firing submits as `HandleInactivity` does, adding one HIGH alert and advancing the counter, and otherwise the store, the status and the tier are unchanged; the step, the report, the errors, the fix and both flags never change |
| PatientFormPage.PatientForm.ResetForm | pages/PatientForm.tsx:159-168 | every wizard field returns to its initial value, the result screen closes, the GPS fix is kept and the watchdog is due one minute from now |
| AlertCard.GpsFallbackExactly | components/AlertCard.tsx:51-55 | the card shows "GPS Location Available" iff neither an address nor a city is filled in |
| AlertCard.SummaryLeadsWithAddress | components/AlertCard.tsx:51-52 | with an address, the card shows "address, city" |
| AlertCard.SummaryOfManualEntry | components/AlertCard.tsx:53-54 | a complete manual entry without an address shows "city, lga, state" |
| AlertCard.ResolvedCardIsInert | components/AlertCard.tsx:96-107 | a RESOLVED card enables neither "Call Patient" nor "Resolve" |
| DashboardPage.FilteredAlerts | pages/CHWDashboard.tsx:80 | the filtered list is no longer than the whole list and shows only matching alerts |
| DashboardPage.FilterContents | pages/CHWDashboard.tsx:80 | the filter keeps every matching alert, as often as it occurs, and drops every other one |
| DashboardPage.FilterKeepsOrder | pages/CHWDashboard.tsx:80 | filtering distributes over concatenation, so the order is kept |
| DashboardPage.FilterAllIsIdentity | pages/CHWDashboard.tsx:80 | "ALL" shows the whole list |
| DashboardPage.StatusCountsAddUp | pages/CHWDashboard.tsx:81-84 | the three status filters partition the list |
| DashboardPage.AlertCounts | pages/CHWDashboard.tsx:81-84 | there is one badge per filter, equal to the length of that filter's list; the ALL badge is the list length and equals the sum of the status badges |
| DashboardPage.CountsExample | pages/CHWDashboard.tsx:81-84 | statuses NEW, NEW, CONTACTING, RESOLVED give badges 4, 2, 1 and 1 |
| DashboardPage.Dashboard.constructor | pages/CHWDashboard.tsx:16-23 | the first render is loading, empty, filtered to NEW, with the dialog closed |
| DashboardPage.Dashboard.Visible | pages/CHWDashboard.tsx:80-130 | no card shows under the first-load spinner or the error message; otherwise the cards are exactly the alerts the selected filter matches, each as often as it is stored |
| DashboardPage.Dashboard.Counts | pages/CHWDashboard.tsx:81-104 | there is one badge per filter button; ALL counts the whole list; the selected filter's badge is the length of its filtered list, and equals the number of cards whenever the list is shown |
| DashboardPage.EveryFilterHasButton | pages/CHWDashboard.tsx:13 | every filter value has a button in the filter bar |
| DashboardPage.Dashboard.SetFilter | pages/CHWDashboard.tsx:98 | choosing a filter changes the cards shown to that filter's list, if the list is shown, and leaves the badges unchanged |
| DashboardPage.Dashboard.FetchAlerts | pages/CHWDashboard.tsx:26-38 | a successful fetch replaces the list and clears the error; a failed fetch keeps the last list but shows only "Failed to fetch alerts." and no card; after a success the list is shown with the selected filter applied; loading ends either way |
| DashboardPage.Dashboard.Refetch | pages/CHWDashboard.tsx:26-38 | the list becomes a newest-first permutation of the store |
| DashboardPage.Dashboard.HandleUpdateStatus | pages/CHWDashboard.tsx:47-54 | the store changes as `StatusUpdate` says, and the counter and the workers do not change; on success the list is reloaded newest first, the error is cleared and loading ends; on failure the page state is unchanged |
| DashboardPage.Dashboard.HandleOpenResolveModal | pages/CHWDashboard.tsx:56-63 | the dialog opens on the listed alert with that id and with no reason chosen; an unlisted id changes nothing |
| DashboardPage.Dashboard.ChooseResolution | pages/CHWDashboard.tsx:138 | the reason becomes the choice, with the empty option as none |
| DashboardPage.Dashboard.CloseResolveModal | pages/CHWDashboard.tsx:134 | the dialog closes |
| DashboardPage.Dashboard.HandleResolve | pages/CHWDashboard.tsx:65-78 | nothing happens without a selected alert and a reason; otherwise the store changes as `Resolve` says, with no notes; the counter and the workers never change; success closes the dialog, clears the selection, reloads the list, clears the error and ends loading; failure keeps the dialog, the list, the error and the loading flag as they were; whenever the call is made, the resolving spinner ends; a guarded press changes nothing |
| Lifecycle.CardEffect | components/AlertCard.tsx:96-106 | each card action leaves the alert in the status it requests, under the same id |
| Lifecycle.CardTransitionsAre | components/AlertCard.tsx:96-107 | the card can take NEW to CONTACTING, NEW to RESOLVED and CONTACTING to RESOLVED, and no other pair |
| Lifecycle.CardRunsMoveForward | components/AlertCard.tsx:96-107 | every enabled action moves the status strictly forward, so at most two actions apply to an alert |
| Lifecycle.ResolvedIsTerminal | components/AlertCard.tsx:103-107 | no card action applies to a RESOLVED alert |
| Lifecycle.CardRunsKeepResolutionConsistent | services/apiService.ts:101-107 | along card actions, a resolution and a resolution time are present exactly when the status is RESOLVED |
| Lifecycle.StartsConsistent | services/apiService.ts:12-67 | seeded alerts and new alerts satisfy that consistency; new alerts start NEW |
| Lifecycle.StoreAcceptsReopening | services/apiService.ts:89-92 | moving a resolved alert back to NEW through the store leaves a stale resolution |
| Lifecycle.ViewMapStricterThanWizard | components/AlertCard.tsx:83 | "View Map" implies that the wizard saw a GPS location, but a zero coordinate passes the wizard and hides the map |
| Scenarios.EmergencyReport | pages/PatientForm.tsx:83-99 | a full report with a GPS fix, submitted by the emergency button, gives HIGH and exactly one NEW alert at the front holding that report |
| Scenarios.DoubleSubmit | pages/PatientForm.tsx:84 | a second press before reset starts nothing, so exactly one alert is created |
| Scenarios.CallThenResolve | services/apiService.ts:86-110 | a fresh alert that is called and then resolved with "Advised to Monitor" is RESOLVED with that reason and the resolution time |
| Scenarios.InactivityFiresOnce | pages/PatientForm.tsx:29-41 | a typed phone number and a minute's inactivity give exactly one forced submission, and the watchdog does not fire again |
| Scenarios.ActivityAfterSubmissionResubmits | hooks/useInactivityTimer.ts:14-30 | activity after a submission re-arms the watchdog, and the same report is sent again as a second alert |

## Left out

- Network delays, `async` interleavings and console logging are left out. Each call is one atomic step, and an outstanding submission is modelled by the form status `Submitting` between `BeginSubmit` and `FinishSubmit`.
- The classifier's probabilities (thresholds 0.33 and 0.66) are left out. `drawn` stands for any draw, so every tier is covered, and the random worker assignment becomes a `workerIndex` parameter.
- Coordinate values are abstracted to zero or non-zero, because only truthiness and `!= null` matter in the modelled code. The Google Maps URL is left out.
- Date formatting and ISO strings are left out. Timestamps are integer milliseconds taken from `now`, and the card's "Received" text is not modelled.
- The token strings `mock_token_…` are abstracted to a token value tagged by kind and issue time.
- `useAuth`, `useGeolocation`, the `App.tsx` routing and the presentational components are not part of this model. A GPS fix arrives through `ReceiveGeoFix`.
- The wizard's auto-advance timeouts (300 ms and 500 ms) are left out. The model shows only the transition they trigger, which is `NextStep`.
- The two-second delay of the auto-submit effect is modelled by `AutoSubmitEffect` arming, followed by a separate `Submit`.
- Effect re-runs caused by a callback changing identity are left out. React re-runs the watchdog's mount effect when the callback changes, and this re-arming is not modelled; re-arming on activity is.
- The dashboard's 30-second polling is left out, other than as repeated calls of `Refetch`.
- The notes text box is not modelled. Its value is never sent, so `HandleResolve` always passes no notes.
- ApiService.SortNewestFirst: the model does not state the stability of the browser's sort, because the source does not depend on it.
- Lengths are counted in characters, not UTF-16 code units. This matches the source for the ASCII inputs it validates.
- `getCHWAlerts` does not filter by worker id, and neither does the model.
- Absent fields of a partial record are written as the empty value. The seeded alerts' symptom records have no `phone` and no `location` in the source; the model gives them `""` and an empty location. A missing answer is `None`.
- The watchdog has no clock of its own. `ResetTimer`, `Mount`, `OnActivity` and `ResetForm` require `InTime(now)`: an event never arrives while a callback that is already due is still pending, because the browser runs due timers before later events, so the caller delivers `TimerElapsed` first.
