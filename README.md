# Maternal-health dashboard: a Dafny model of its record-keeping rules

The system helps ASHA community health workers (Accredited Social Health
Activists) look after pregnant mothers. This model covers two of its parts.

- **The browser app.**
  - The health worker's side keeps a list of mothers, each with an additive risk score and a Red/Yellow/Green label.
    Its pages split the list by label, show the flagged mothers, run simulated call campaigns and take in new mothers through an intake form.
  - The mother's side has a sign-in page, a daily task list with a medicine cabinet, a baby-kick log and emergency contacts.
- **The backend.** A Flask service keeps mothers, call logs, health records, appointments, stock counts and health workers in a database.
  - A telephony webhook matches a caller's number to a mother, acts on the keys she presses, and flags her when a call goes unanswered.
  - Its routes check and apply create and partial-update requests.

The model works as follows.

- **Database.** The database is the `Records.Database` class: one `seq` field per table, in insertion order.
  Routes are methods that take the database and say, in their `ensures`, the reply and the complete new state of every table.
- **Browser state.** React state becomes a class per page or component, with one field per state variable.
  Event handlers and effects become methods. Timers become separate step methods.
- **Pure logic.** The risk score, filters, phone formatting and result labels become functions.
  Lemmas state what the source promises about them.
- **Values passed in.** Dates are day numbers. Randomness, new ids, "today", parsed numbers and what the telephony providers answer are all passed in as parameters.
- **Python truthiness** is written out:
  - `data.get(f)` is truthy when the key is present and its value is non-empty, and for numbers, non-zero.
  - A date parse that the route does not catch makes the reply `Fail(500, ServerError)` and leaves the tables unchanged, because the session is rolled back.

Files, one module each: `common.dfy` (generic sequence and string helpers),
`records.dfy`, `risk.dfy`, `campaign.dfy`, `single_call.dfy`, `profile.dfy`,
`dashboard.dfy`, `flagged_list.dfy`, `mother_form.dfy`,
`mother_dashboard.dfy`, `kick_history.dfy`, `contacts.dfy`,
`mother_login.dfy`, `call_logs_list.dfy`, `helpers.dfy`, `ivr_service.dfy`,
`ivr_routes.dfy`, `mothers_routes.dfy`, `health_routes.dfy`,
`appointments_routes.dfy`, `phc_routes.dfy`, `auth_routes.dfy`.

## Model

| member | source | states |
|---|---|---|
| Risk.Score | frontend/src/contexts/MotherContext.tsx:58-71 | The additive score always lies between 0 and 12. |
| Risk.DetermineRiskLabel | frontend/src/contexts/MotherContext.tsx:73-76 | The label is Red iff the score is at least 4, Yellow iff it is 2 or 3, and Green iff it is below 2. |
| Risk.RiskTokenAnyCase | frontend/src/contexts/MotherContext.tsx:61-62 | "diabetes", "bp" or "high pressure" in any letter case, at any offset, counts as medical risk. |
| Risk.MedicalRiskNeverGreen | frontend/src/contexts/MotherContext.tsx:61-64 | Medical risk alone adds 3, so such a mother is never Green, whatever her call history. |
| Risk.AgeBoundaries | frontend/src/contexts/MotherContext.tsx:65 | Ages 18 and 35 add 0; ages 17 and 36 add 2. |
| Risk.MissedCallsMonotone | frontend/src/contexts/MotherContext.tsx:71 | More missed calls never make the label less severe. |
| Risk.MissedCallsSaturate | frontend/src/contexts/MotherContext.tsx:71 | Two or more missed calls all add 2 and give the same label. |
| Risk.AfterCall | frontend/src/contexts/MotherContext.tsx:128-153 | An answered call resets the counter to 0 with status Answered. A missed call adds 1, with status Missed (2+) iff the new count is at least 2, else Missed (1). The status is never left N/A, the label is re-derived, and no other field changes. |
| Risk.NewMother | frontend/src/contexts/MotherContext.tsx:102-122 | The new record: phone copied from the phone number, the default address, ANC date today, 12 weeks, not flagged, not visited, status N/A, no missed calls, and the label the classifier gives with 0 missed calls. |
| Risk.GetUpdatedRiskLabel | frontend/src/contexts/MotherContext.tsx:96-100 | A record's label is recomputed from its own details and missed-call counter: Red iff the score is at least 4, Green iff below 2, and never Green after two or more missed calls. |
| Risk.SeedLalitaRed | frontend/src/contexts/MotherContext.tsx:86-89 | Seed record m-2 scores 9 and its stored Red label agrees with the classifier. |
| Risk.SeedGeetaUnsettled | frontend/src/contexts/MotherContext.tsx:90-93 | Seed record m-3 is stored as Yellow but scores 1, so the classifier gives Green: the seed list breaks the label invariant. |
| Risk.MotherStore.constructor | frontend/src/contexts/MotherContext.tsx:81-94 | The store starts with the three seed records. |
| Risk.MotherStore.AddMother | frontend/src/contexts/MotherContext.tsx:102-125 | Appends exactly one record at the end, labelled by the classifier; earlier records are unchanged. |
| Risk.MotherStore.SimulateBulkCall | frontend/src/contexts/MotherContext.tsx:127-155 | Length and order are kept, each record becomes `AfterCall` of itself, and afterwards every label agrees with the classifier. |
| CallCampaign.ClassifyDraw | frontend/src/components/CallAllModal.tsx:54-63 | Draws below 70% are answered, from 70% up to 90% not answered, and the rest pressed 2: exactly one outcome per draw. |
| CallCampaign.InitialStatuses | frontend/src/components/CallAllModal.tsx:21-28 | One pending status per target, with the same ids and in the same order. |
| CallCampaign.ResultsOf | frontend/src/components/CallAllModal.tsx:35-39 | At most one entry per status, and the last entry, once ended, has its outcome in the map (a later entry for an id replaces an earlier one). |
| CallCampaign.ResultsKeys | frontend/src/components/CallAllModal.tsx:35-39 | The results map's keys are exactly the ids of the entries that have ended. |
| CallCampaign.ResultsComplete | frontend/src/components/CallAllModal.tsx:35-39 | With distinct ids, a finished campaign has one result per target, and it is that target's own outcome. |
| CallCampaign.SummaryCounts | frontend/src/components/CallAllModal.tsx:107-110 | answered + not answered + pressed 2 is at most the number of targets, and equal to it once every call has ended. |
| CallCampaign.CollectResults | frontend/src/components/CallAllModal.tsx:33-40 | The `forEach` loop builds exactly the map of the ended entries. |
| CallCampaign.CallAllModal.constructor | frontend/src/components/CallAllModal.tsx:17-28 | Initial state: every target pending, cursor at 0, not complete. |
| CallCampaign.CallAllModal.Advance | frontend/src/components/CallAllModal.tsx:30-51 | Past the last target the run completes with the results map; otherwise only the entry at the cursor changes, to calling. The cursor invariant is kept. |
| CallCampaign.CallAllModal.Resolve | frontend/src/components/CallAllModal.tsx:53-72 | Only the entry at the cursor changes, to the drawn outcome, and the cursor moves on by exactly 1. |
| CallCampaign.CallAllModal.Summary | frontend/src/components/CallAllModal.tsx:107-110 | The three summary counts add up to at most the number of targets, and to exactly that number on completion. |
| CallCampaign.AtMostOneCalling | frontend/src/components/CallAllModal.tsx:47-71 | Under the cursor invariant, the only entry that can be calling is the one at the cursor. |
| SingleCall.ResponseFor | frontend/src/components/SingleCallModal.tsx:22-27 | Key 1 reports answered and key 2 reports pressed_2; nothing else can be reported. |
| SingleCall.SingleCallModal.constructor | frontend/src/components/SingleCallModal.tsx:12-13 | Neither the call nor the prompt is active at first. |
| SingleCall.SingleCallModal.StartCall | frontend/src/components/SingleCallModal.tsx:15-17 | The call starts and nothing is reported. |
| SingleCall.SingleCallModal.PromptTimer | frontend/src/components/SingleCallModal.tsx:17-19 | The prompt appears, only once the call has started. |
| SingleCall.SingleCallModal.HandleResponse | frontend/src/components/SingleCallModal.tsx:22-28 | Exactly one result is reported, the one matching the key. |
| SingleCall.SingleCallModal.Close | frontend/src/components/SingleCallModal.tsx:35-40 | Closing reports nothing. |
| Profile.FindMother | frontend/src/pages/MotherProfile.tsx:42 | Finds the first record with the id, and reports none only when no record has it. |
| Profile.Merge | frontend/src/pages/MotherProfile.tsx:63-66 | The supplied fields are overwritten; every other field is unchanged. |
| Profile.ToggleTwice | frontend/src/pages/MotherProfile.tsx:68-71 | Toggling the flag twice restores the record. |
| Profile.MarkVisitedIdempotent | frontend/src/pages/MotherProfile.tsx:73-76 | Marking a mother visited twice is the same as once. |
| Profile.ProfilePage.Load | frontend/src/pages/MotherProfile.tsx:41-47 | A found record is shown, and loading ends whether or not one is found. |
| Profile.ProfilePage.UpdateLocalMotherState | frontend/src/pages/MotherProfile.tsx:63-66 | The patch is merged into the shown record; with no record shown, nothing changes. |
| Profile.ProfilePage.ToggleFlag | frontend/src/pages/MotherProfile.tsx:68-71 | `flagged` is negated and nothing else changes; with no record shown, nothing happens. |
| Profile.ProfilePage.MarkVisited | frontend/src/pages/MotherProfile.tsx:73-76 | `visited` becomes true and `flagged` false, whatever they were before; with no record shown, nothing happens. |
| Profile.ProfilePage.HandleCallComplete | frontend/src/pages/MotherProfile.tsx:78-86 | pressed_2 flags the mother, answered leaves her unchanged, and the dialog closes in both cases. With no record shown, nothing happens. |
| Dashboard.ByLabel | frontend/src/pages/Dashboard.tsx:73-75 | Each list holds exactly the mothers with that label. |
| Dashboard.ByLabelKeepsOrder | frontend/src/pages/Dashboard.tsx:73-75 | The split keeps store order: the list for two stores joined is the first store's list followed by the second's. |
| Dashboard.PartitionSizes | frontend/src/pages/Dashboard.tsx:73-75 | The three list lengths add up to the number of mothers. |
| Dashboard.ExactlyOneList | frontend/src/pages/Dashboard.tsx:73-75 | A mother appears in the list of her own label and in no other. |
| Dashboard.LabelClasses | frontend/src/pages/Dashboard.tsx:11-18 | The pill is red, yellow or green exactly when the label is Red, Yellow or Green. |
| Dashboard.CallStatusBadge | frontend/src/pages/Dashboard.tsx:20-27 | The badge is green for an answered call, yellow for one missed call, red for two or more, and grey when there was no call. |
| Dashboard.StylesDistinguish | frontend/src/pages/Dashboard.tsx:11-27 | Different labels, and different call statuses, get different styles. |
| Dashboard.DashboardPage.BeginSimulateCall | frontend/src/pages/Dashboard.tsx:77-79 | The button switches to calling. |
| Dashboard.DashboardPage.FinishSimulateCall | frontend/src/pages/Dashboard.tsx:80-83 | Exactly one bulk call is applied to the store, then calling ends. |
| FlaggedList.FlaggedMothers | frontend/src/components/FlaggedMothersList.tsx:10 | Exactly the flagged mothers are listed. |
| FlaggedList.FlaggedKeepsOrder | frontend/src/components/FlaggedMothersList.tsx:10 | The input order is kept. |
| FlaggedList.FlaggedCount | frontend/src/components/FlaggedMothersList.tsx:19 | The heading count is the length of the filtered list, and at most the input length. |
| FlaggedList.EmptyMessageIffNoneFlagged | frontend/src/components/FlaggedMothersList.tsx:23-24 | The empty message shows iff no mother is flagged. |
| MotherForm.InitialForm | frontend/src/pages/MotherForm.tsx:19-34 | Age 0, weight 0, pregnancy number 1, phone type Smartphone; submit disabled and no preview. |
| MotherForm.Change | frontend/src/pages/MotherForm.tsx:50-56 | Only the named field changes; age, pregnancy number, weight and height are stored as numbers. |
| MotherForm.ChangeSameValue | frontend/src/pages/MotherForm.tsx:50-56 | Writing a field with the value it already holds leaves the form unchanged. |
| MotherForm.CurrentRisk | frontend/src/pages/MotherForm.tsx:39 | The preview is shown iff age and weight are positive, and then equals the classifier with 0 missed calls. |
| MotherForm.SubmitDisabled | frontend/src/pages/MotherForm.tsx:177 | The button is disabled exactly when one of the five required inputs (name, phone number, age, last period date, weight) is blank, read through the per-field view of the form. |
| MotherForm.OnlyRequiredFieldsGate | frontend/src/pages/MotherForm.tsx:177 | Changing any input other than the five required ones leaves the button as it was. |
| MotherForm.GateAndPreviewDiffer | frontend/src/pages/MotherForm.tsx:177 | The submit gate only checks for non-empty and non-zero, so a negative age passes it without a preview. A form can show a preview while still blocked. |
| MotherForm.SubmittedLabelIsPreview | frontend/src/pages/MotherForm.tsx:39 | The record that submit adds carries exactly the previewed label. |
| MotherForm.MotherFormPage.HandleChange | frontend/src/pages/MotherForm.tsx:50-56 | The form state becomes `Change` of the old state. |
| MotherForm.ConstraintsMet | frontend/src/pages/MotherForm.tsx:68-94 | The browser lets the submit event through exactly when every input marked `required` (the seven priority-1 inputs and the phone type) shows a value; zero and empty text show nothing. |
| MotherForm.ConstraintsOpenGate | frontend/src/pages/MotherForm.tsx:126-177 | The button's five inputs are all marked required, so a form the browser accepts always has the button enabled. |
| MotherForm.GateOpenButBlocked | frontend/src/pages/MotherForm.tsx:126-177 | The button can be enabled while the browser still blocks the submit: a blank medical conditions field, or a pregnancy number of 0. |
| MotherForm.MotherFormPage.HandleSubmit | frontend/src/pages/MotherForm.tsx:58-62 | Runs only when the button is enabled and the browser's required-field check passes; the form's details are appended to the store as one new record. |
| MotherHome.FindTask | frontend/src/pages/MotherDashboard.tsx:68 | Finds the first task with the id, and reports none only when no task has it. |
| MotherHome.Completed | frontend/src/pages/MotherDashboard.tsx:62 | Exactly the completed tasks. |
| MotherHome.CompletedCount | frontend/src/pages/MotherDashboard.tsx:62 | At most the number of tasks, and equal to it iff every task is done. |
| MotherHome.CompletedAll | frontend/src/pages/MotherDashboard.tsx:62 | All tasks are counted iff every task is done. |
| MotherHome.SetCompleted | frontend/src/pages/MotherDashboard.tsx:74-76 | Only the tasks with that id change, and only in `completed`. |
| MotherHome.ToggleMovesCount | frontend/src/pages/MotherDashboard.tsx:72-76 | With distinct ids, toggling one task moves the completed count by exactly one, in the matching direction. |
| MotherHome.TakeOne | frontend/src/pages/MotherDashboard.tsx:231-233 | Only the matching medicine loses one unit of stock. |
| MotherHome.TakeOneGoesNegative | frontend/src/pages/MotherDashboard.tsx:232 | There is no lower bound: stock 0 becomes -1. |
| MotherHome.MotherDashboardPage.constructor | frontend/src/pages/MotherDashboard.tsx:47-59 | The initial tasks and medicines, and an empty medicine history. |
| MotherHome.MotherDashboardPage.ToggleTask | frontend/src/pages/MotherDashboard.tsx:67-91 | An unknown id changes nothing. Otherwise the task flips. Ticking a medicine task adds today to the history only if it is absent, so the history never holds duplicates. Unticking, or ticking a general task, leaves the history alone. |
| MotherHome.MotherDashboardPage.AddMedicine | frontend/src/pages/MotherDashboard.tsx:93-104 | Appends exactly one medicine (stock 10, "As prescribed"), and only for a non-empty name. |
| MotherHome.MotherDashboardPage.TakeOneButton | frontend/src/pages/MotherDashboard.tsx:231-233 | The medicines become `TakeOne` of the old ones; tasks and history are unchanged. |
| KickHistory.StoredNotes | frontend/src/pages/BabyKickHistory.tsx:28 | Empty notes are stored as absent. |
| KickHistory.FindGroup | frontend/src/pages/BabyKickHistory.tsx:53-56 | Finds the group of a date, and reports none only when no group has that date. |
| KickHistory.Grouped | frontend/src/pages/BabyKickHistory.tsx:52-58 | The `reduce` makes at most one group per log, and no groups only for an empty log. |
| KickHistory.AddToGroupKeepsGrouping | frontend/src/pages/BabyKickHistory.tsx:52-58 | One step of the `reduce` keeps the result a grouping of the logs seen so far. |
| KickHistory.GroupedIsGrouping | frontend/src/pages/BabyKickHistory.tsx:52-58 | One group per date, each holding exactly its date's logs in log order, and the group sizes add up to the number of logs. |
| KickHistory.GroupLogs | frontend/src/pages/BabyKickHistory.tsx:52-58 | The loop computes the grouping. |
| KickHistory.KickHistoryPage.HandleAddLog | frontend/src/pages/BabyKickHistory.tsx:20-40 | With count and duration filled in, the new log goes in front of the old ones, the form resets and the dialog closes. Otherwise nothing changes. |
| Contacts.ContactsPage.HandleAddContact | frontend/src/pages/EmergencyContacts.tsx:27-40 | A complete form is appended as a non-primary contact, the form resets and the dialog closes. An incomplete form changes nothing. Every primary contact afterwards was a primary contact before. |
| MotherLogin.LoginAccepted | frontend/src/pages/MotherLogin.tsx:13-16 | Accepted iff the input is exactly ten characters long, so an empty input is rejected. |
| MotherLogin.AnyTenCharacters | frontend/src/pages/MotherLogin.tsx:13 | The characters themselves are not checked: ten letters pass. |
| MotherLogin.SessionStorage.HandleLogin | frontend/src/pages/MotherLogin.tsx:9-23 | A rejected number writes nothing. An accepted one sets `mother_auth` to 'authenticated', after which the guard admits. |
| MotherLogin.SessionStorage.Logout | frontend/src/pages/MotherDashboard.tsx:106-107 | Removes the flag, after which the guard refuses. |
| CallLogsList.MaskPhone | frontend/src/components/CallLogsList.tsx:15-17 | The first four characters, "***", then the last two: nine characters for a number of six or more. A shorter number shows its first four (or all) characters, the stars, then its last two (or all). |
| CallLogsList.MaskShortPhone | frontend/src/components/CallLogsList.tsx:16 | For short numbers the two ends overlap. |
| CallLogsList.GetResultDisplay | frontend/src/components/CallLogsList.tsx:29-40 | answered, not_answered and pressed_2 show as Answered, No Answer and Not Taken; anything else is shown as it is. |
| CallLogsList.GetMotherName | frontend/src/components/CallLogsList.tsx:10-13 | The name of the first mother with the id, or 'Unknown'. |
| CallLogsList.Shown | frontend/src/components/CallLogsList.tsx:57 | A prefix of the list of exactly ten logs, or all of them when there are fewer. |
| CallLogsList.HeaderCount | frontend/src/components/CallLogsList.tsx:49 | The heading reports the full length, at least as many as are shown. |
| Helpers.NextPeriodDate | backend/utils/helpers.py:6-10 | None iff there is no last date; otherwise the last date plus the cycle length. |
| Helpers.GestationWeeks | backend/utils/helpers.py:12-17 | None iff there is no date; otherwise the whole number of weeks since it, rounded down. |
| Helpers.ValidatePhoneNumber | backend/utils/helpers.py:34-38 | Valid exactly when the number's digits are ten national digits, alone or after a 91 country code. |
| Helpers.FormatPhoneNumber | backend/utils/helpers.py:19-28 | Ten digits give "+91" and the digits; twelve digits starting with 91 give "+" and the digits. |
| Helpers.PlusBranchUnreachable | backend/utils/helpers.py:29-30 | The `startswith('+91')` test on the digit string never passes. |
| Helpers.FormatOtherwiseUnchanged | backend/utils/helpers.py:32 | Any other input is returned unchanged. |
| Helpers.ValidFormatsToPlus91 | backend/utils/helpers.py:19-38 | A valid number formats to 13 characters starting with "+91"; an invalid one comes back unchanged. |
| Helpers.FormatIdempotent | backend/utils/helpers.py:19-32 | Formatting a formatted number changes nothing. |
| Helpers.FormatKeepsNumber | backend/utils/helpers.py:19-38 | A valid number and its formatted form carry the same national digits. |
| IvrService.ResultFor | backend/services/ivr_service.py:210-214 | needs_help maps to pressed_2; every other response type, known or not, maps to answered. |
| IvrService.ResponseLog | backend/services/ivr_service.py:216-222 | The log copies the mother's health worker, id and phone, with the mapped result and no duration. |
| IvrService.ResponseTypeFor | backend/services/ivr_service.py:62-94 | Only keys 1, 2 and 3 have a response type. |
| IvrService.HandleUserInput | backend/services/ivr_service.py:58-97 | Key 2 flags the mother and logs pressed_2. Keys 1 and 3 log answered and leave the flag alone. Any other input changes nothing. |
| IvrService.KeyResults | backend/services/ivr_service.py:81-91 | Key 3 logs answered whether or not an appointment is booked, and only key 2 logs pressed_2. |
| IvrService.ChooseProvider | backend/services/ivr_service.py:106-107 | Exotel iff both its key and token are set. |
| IvrService.InitiateCall | backend/services/ivr_service.py:99-141 | Twilio without a SID or token fails with "not configured", and only then. Each provider succeeds exactly when its answer is a success, and Exotel successes are marked 'initiated'. |
| IvrRoutes.Or | backend/routes/ivr.py:29-32 | Python's `a or b`: the first value unless it is absent or empty. |
| IvrRoutes.PhoneDigits | backend/routes/ivr.py:40-42 | Non-digits are dropped, and a 91 prefix is removed from twelve digits. |
| IvrRoutes.FindByPhone | backend/routes/ivr.py:45 | The first mother with that phone, and none only when no mother has it. |
| IvrRoutes.LookupMother | backend/routes/ivr.py:44-56 | The mother found has one of the four looked-up forms as her number. |
| IvrRoutes.CascadeFirstHit | backend/routes/ivr.py:45-53 | The lookup tries the forms in order and the first hit wins. |
| IvrRoutes.LookupSpec | backend/routes/ivr.py:44-56 | The mother found has the number in one of the four forms, and none is found only when no mother has any of them. |
| IvrRoutes.FindsBareTenDigitNumber | backend/routes/ivr.py:38-53 | A mother stored under ten bare digits is found from those digits, from the digits with a 91 or +91 prefix, or from the digits with separators. |
| IvrRoutes.CompletedResult | backend/routes/ivr.py:73-74 | answered iff the duration is present, non-empty and positive; otherwise not_answered. |
| IvrRoutes.StoredDuration | backend/routes/ivr.py:81 | A duration is stored iff the field is non-empty. |
| IvrRoutes.HandleWebhook | backend/routes/ivr.py:17-95 | No phone gives 400 and no mother gives 404, both with no change. Ringing or initiated greets. In progress with keys goes to the input handler, with its effect: key 2 flags the mother, keys 1, 2 and 3 each append one response log, and other keys change nothing. Completed or ended appends exactly one log and flags the mother iff unanswered. Any other status replies ok with no change. |
| Records.FindOwnedMother | backend/routes/mothers.py:36 | The first mother with that id belonging to the caller, and none exactly when the caller owns no mother with that id. |
| MothersRoutes.GetMothers | backend/routes/mothers.py:16-29 | Only the caller's mothers: 'true' keeps the flagged ones, 'false' the unflagged ones, and anything else keeps them all. |
| MothersRoutes.OtherFlagListsAll | backend/routes/mothers.py:23-26 | Any flag argument other than 'true' or 'false' lists every one of the caller's mothers. |
| MothersRoutes.FirstMissing | backend/routes/mothers.py:50-53 | The first required field, in list order, that is not given. |
| MothersRoutes.NoneMissingIffComplete | backend/routes/mothers.py:50-53 | The field loop passes iff every required field is given. |
| MothersRoutes.OptionalDate | backend/routes/mothers.py:69-70 | An optional date is parsed only when given, and may fail to parse. |
| MothersRoutes.NewRow | backend/routes/mothers.py:60-73 | The inserted row copies the name, age, phone, address, gestation weeks and the three dates from the request, and has the defaults: health status normal, cycle length 28, not post-pregnancy, not flagged, not visited, reminders on. |
| MothersRoutes.CreateMother | backend/routes/mothers.py:43-78 | 400 names the first missing field. A bad ANC date gives 400, and a bad optional date gives 500. Success (201) happens exactly for a valid request and appends exactly the new row; a failure inserts nothing. |
| MothersRoutes.ZeroCountsAsMissing | backend/routes/mothers.py:51-53 | An age of 0 is reported as the missing field "age". |
| MothersRoutes.ZeroWeeksCountsAsMissing | backend/routes/mothers.py:51-53 | A gestation of 0 weeks is reported as the missing field "gestation_weeks". |
| MothersRoutes.Pick | backend/routes/mothers.py:92-121 | A present key sets the field, and an absent one keeps it. |
| MothersRoutes.DateUpdate | backend/routes/mothers.py:112-117 | A present date key sets the parsed date, and empty text clears it. |
| MothersRoutes.ApplyUpdate | backend/routes/mothers.py:92-121 | Exactly the present keys change their fields; the id and owner never change. |
| MothersRoutes.EmptyUpdateKeepsRecord | backend/routes/mothers.py:92-121 | An update with no keys changes nothing. |
| MothersRoutes.UpdateIdempotent | backend/routes/mothers.py:92-121 | Sending the same update twice is the same as sending it once. |
| MothersRoutes.UpdateMother | backend/routes/mothers.py:80-125 | A mother the caller does not own gives 404 with no change, and a date that fails to parse gives 500 with no change. Otherwise only that row changes, to `ApplyUpdate` of it, with reply 200. |
| MothersRoutes.FlagUpdateListsMother | backend/routes/mothers.py:104-105 | A mother updated with flagged true is in the caller's flagged list. |
| MothersRoutes.TriggerCall | backend/routes/mothers.py:148-191 | A mother the caller does not own gives 404. A started call appends exactly one 'initiated' log, with the provider defaulting to twilio. A failed call appends nothing. |
| HealthRoutes.CreateHealthRecord | backend/routes/health.py:31-73 | A missing mother id gives 400, and a mother the caller does not own gives 404. A missing type or date, or a bad date, gives 400 and inserts nothing. The reply is 201 iff the mother id is given, the caller owns the mother, the type and date are given and the date parses; then exactly one record is inserted; a period record sets the mother's last period date, and other types leave it alone. |
| HealthRoutes.OfTypeNewestFirst | backend/routes/health.py:86-89 | Exactly the mother's records of that type, as a permutation, most recent first. |
| HealthRoutes.PermutationKeepsType | backend/routes/health.py:86-89 | Reordering keeps every record of that mother and type. |
| HealthRoutes.PeriodTracker | backend/routes/health.py:75-101 | 404 iff the caller does not own the mother. The next date is set only when both the last date and a non-zero cycle length are present. Exactly 12 records, or all of them when there are fewer, newest first. |
| HealthRoutes.TrackerKeepsNewest | backend/routes/health.py:86-89 | No period record left out is newer than one shown. |
| HealthRoutes.FewRecordsAllShown | backend/routes/health.py:86-89 | With twelve period records or fewer, all of them are shown. |
| HealthRoutes.TrackerUsesHelper | backend/routes/health.py:92-94 | The tracker's next date is the next-period helper's. |
| HealthRoutes.PcosInfo | backend/routes/health.py:103-131 | 404 when not owned, 400 unless the status is pcos; otherwise her symptom records, newest first. |
| HealthRoutes.PostPregnancyInfo | backend/routes/health.py:133-162 | 404 when not owned, 400 unless post-pregnancy is set; otherwise her appointment records, newest first. |
| AppointmentsRoutes.MotherIds | backend/routes/appointments.py:21-22 | Exactly the ids of the caller's mothers. |
| AppointmentsRoutes.GetAppointments | backend/routes/appointments.py:12-44 | Exactly the caller's appointments with the given status and, when asked for upcoming ones, a date from today on; sorted by date. |
| AppointmentsRoutes.UpcomingAppointments | backend/routes/appointments.py:116-142 | Exactly the caller's scheduled appointments from today to today + 7, sorted by date. |
| AppointmentsRoutes.UpcomingExactly | backend/routes/appointments.py:121-132 | Membership in the upcoming list, in both directions. |
| AppointmentsRoutes.UpcomingInGeneralList | backend/routes/appointments.py:24-33 | Every upcoming appointment is also in the general scheduled, upcoming list. |
| AppointmentsRoutes.CreateAppointment | backend/routes/appointments.py:46-82 | 400 for the first missing field, 404 when the caller does not own the mother, 400 for a bad date. The reply is 201 iff all three fields are given, the caller owns the mother and the date parses; then exactly one appointment is added, with status 'scheduled' by default, and it overwrites the mother's next appointment date. |
| AppointmentsRoutes.FindAppointment | backend/routes/appointments.py:89 | The appointment with that id, if any. |
| AppointmentsRoutes.ApplyUpdate | backend/routes/appointments.py:101-110 | Exactly the present keys change their fields; the id and mother never change. |
| AppointmentsRoutes.EmptyUpdateKeepsAppointment | backend/routes/appointments.py:101-110 | An update with no keys changes nothing. |
| AppointmentsRoutes.UpdateAppointment | backend/routes/appointments.py:84-114 | 404 for an unknown appointment, 403 when another worker's mother owns it, 500 for a bad date. Otherwise only the present keys change. |
| PhcRoutes.FindStock | backend/routes/phc.py:16 | The caller's stock row, if any. |
| PhcRoutes.DefaultStock | backend/models.py:98-101 | A new row has every counter at 0. |
| PhcRoutes.AppendKeepsUnique | backend/models.py:97 | Adding a row for a worker who has none keeps one row per worker. |
| PhcRoutes.ReplaceKeepsUnique | backend/models.py:97 | Replacing a row by one with the same owner keeps one row per worker. |
| PhcRoutes.GetStock | backend/routes/phc.py:11-24 | Returns the existing row unchanged, or creates a zeroed one; there is still one row per worker. |
| PhcRoutes.ApplyStockUpdate | backend/routes/phc.py:39-46 | Exactly the present counters are overwritten. |
| PhcRoutes.StockUpdateIdempotent | backend/routes/phc.py:39-46 | Applying the same update twice is the same as once. |
| PhcRoutes.UpdateStock | backend/routes/phc.py:26-50 | The row is created first if it is missing, then only the present counters change; there is still one row per worker. |
| PhcRoutes.RowFoundAfterCreation | backend/routes/phc.py:33-37 | Once created, the new row is the one the lookup finds. |
| AuthRoutes.FindAsha | backend/routes/auth.py:22 | The health worker with that id, if any. |
| AuthRoutes.Login | backend/routes/auth.py:13-36 | A missing id or password gives 400 and any other failure gives 401. Success happens iff the stored password matches, and the token identity is the internal id. |
| AuthRoutes.UnknownAndWrongPasswordAlike | backend/routes/auth.py:24-29 | An unknown id and a wrong password get the same reply. |
| AuthRoutes.FirstMissing | backend/routes/auth.py:43-46 | The first required field, in list order, that is not given. |
| AuthRoutes.NoneMissingIffComplete | backend/routes/auth.py:43-46 | The field loop passes iff every required field is given. |
| AuthRoutes.Register | backend/routes/auth.py:39-61 | A missing field gives 400 and a duplicate id gives 400, both inserting nothing. Otherwise exactly one worker is appended, with reply 201. |
| AuthRoutes.RegisterKeepsUnique | backend/models.py:16 | A successful registration keeps worker ids unique. |
| AuthRoutes.FoundAfterAppend | backend/routes/auth.py:48-61 | The new worker is the one a lookup of their id finds. |
| AuthRoutes.LoginAfterRegister | backend/routes/auth.py:28-31 | Right after registering, the same id and password sign in. |

## Left out

- **Dates.** Dates are whole day numbers. `calculateEDD`, `toISOString`, `strptime` and `date.today()` are not modelled: the due date, "today" and the outcome of each parse are passed in.
- **Randomness.** `Math.random()` becomes an input: one answered flag per mother for the bulk call, and a percentile from 0 to 99 for the campaign.
- **Timers.** `setTimeout` delays and effect clean-up become separate step methods, for example `PromptTimer`, `Advance`/`Resolve`, and `BeginSimulateCall`/`FinishSimulateCall`.
  - The confetti timer that clears `showConfetti` and the success-message timer of the intake form are not modelled.
- **Number parsing.** `Number()`, `parseInt` and Python `int()` results are passed in. Weight and height are whole numbers.
- **Floating point.** The task progress percentage and the average kick count are not modelled.
- **Letter case and digits.** Letter case and digit tests are ASCII only; Unicode case folding and `str.isdigit` on non-ASCII digits are not modelled.
- **Telephony.** The spoken text and TwiML of the voice calls are not modelled, and neither are the Twilio and Exotel HTTP requests.
  - What a provider answers is passed in.
  - The greeting and the key-press replies are reduced to which message is spoken.
- **Database columns and ordering.**
  - `created_at` and `updated_at` are not modelled, and neither is the `response_data` JSON stored with a log.
  - Listing order is insertion order wherever the source does not sort.
  - The order of ties among equal dates after sorting is not modelled.
  - The `mother` dictionary (`mother.to_dict()`) attached to each entry of the appointment lists is not modelled (backend/routes/appointments.py:37-41 and 135-140).
- **Ids and tokens.** Generated ids (uuid, `Date.now()`) are passed in, and nothing is claimed about their uniqueness. JWT creation and the login reply's access token are not modelled: the token is represented by the identity it carries.
- **Routes not modelled.** These are read-only lookups with no rule beyond the ownership check that the modelled routes share:
  - `get_mother`, `get_mother_call_logs` and `get_flagged_mothers` in backend/routes/mothers.py
  - `get_health_records` in backend/routes/health.py
  - `get_call_logs` in backend/routes/ivr.py
  - `get_current_user` in backend/routes/auth.py:72-80, which returns the signed-in worker or 404

  Two other routes in backend/routes/ivr.py are not modelled either. `initiate_call` only forwards `IvrService.InitiateCall`'s result. `schedule_call` stores a pending schedule row, and the schedule table is not part of this model. The aggregate counts in backend/routes/ashas.py are not part of this model.
- **Requests without a JSON body.** What `request.get_json()` does with a missing or non-JSON body depends on the Werkzeug version, which the repository does not pin. Current versions reject the request before the route body runs: 415 for a non-JSON content type, 400 for malformed JSON. Older versions (before 2.1) give None, as a literal `null` body does in every version; the next `data.get` or `key in data` then raises, and the route ends in a 500. None of these replies is modelled: every request reaching a modelled route is a JSON object.
  This happens at backend/routes/mothers.py:48 and 90, health.py:36, appointments.py:51 and 99, phc.py:31, and auth.py:15 and 41. At backend/routes/ivr.py:26 it happens when both the form and the JSON body are empty.
  Every modelled request is a parsed JSON object.
- **JSON `null` values.** An optional field is an `Option`, and None means the key is absent. An explicit `null` is therefore not expressible:
  - `{"notes": null}` in an update stores None (backend/routes/mothers.py:108-109).
  - `{"next_appointment_date": null}` or `{"last_period_date": null}` clears the date (mothers.py:112-117), as empty text does in the model.
  - `{"health_status": null}` on create stores None instead of 'normal' (mothers.py:68).
  - The same holds for the other `data.get(key, default)` and `key in data` reads.
- **Reply extras.** These parts of replies are not modelled:
  - the `mother` dictionary, the PCOS `recommendations` list and the post-pregnancy `care_checklist` list (backend/routes/health.py:122-131 and 152-162); only the records are.
  - the `asha` dictionary in the login and register replies (backend/routes/auth.py:33-36 and 65-68).
- **`trigger_call` replies.** The success message and the failure body of `trigger_call` (its error and details) are not modelled: a failed call is `Fail(400, "call not started")`.
- **MotherDashboard handlers.** `handleSOS` (a confirmation dialog and an alert) and `handleSaveProfile` (copying the edit dialog's fields into the profile card) are not modelled.
- **Presentation.** JSX rendering, styling other than the label and badge classes, navigation, and the remaining pages are not modelled.
- MotherForm.ConstraintsMet: of the browser's form validation only the `required` attribute is modelled. The type checks of the number, tel and date inputs are not, because the form holds values those inputs have already produced.
- **API and storage.** The API client, Supabase, AuthContext and local storage are not part of this model.
- MothersRoutes.UpdateMother: it states the new row as one record update (`ApplyUpdate`) rather than as fields assigned one after another.
  Nothing is committed before the end of the route, so the effect is the same.
  A 500 reply for an unparsable date is stated as leaving the tables untouched, because the session is rolled back.
- MothersRoutes.CreateMother: a 500 for an unparsable optional date is stated as inserting nothing, for the same reason.
