# CitySafe, modelled in Dafny

CitySafe is a crime-reporting system for Jamaica. It has three parts:

- a React Native mobile client, where citizens file incident reports, follow notifications, chat with a safety assistant and manage a profile;
- a static web dashboard for administrators and law-enforcement users;
- a FastAPI backend that stores users and reports in MongoDB.

This project models the logic under those screens and routes, and proves what it promises.

- **Mobile stores.** The notification store persists a list and a settings record. Its reducer keeps `unreadCount` equal to the number of unread notifications. The profile store keeps the user and their reports. `fetchMyReports` maps backend records onto report cards.
- **Mobile requests.** `submitReport` assembles the multipart report payload. The client also builds the list URL and classifies HTTP errors.
- **Mobile screens.** The report form and its validation, the chat send flow, app navigation, the profile editor, the report list's labels and fallbacks, the connection check, and the offline safety lookup.
- **Web dashboard.** The rules for password strength, password change, adding a user, test-account login and section titles.
- **Backend.** Registration, login and tokens. Report creation, listing, lookup by id and the GeoJSON collection. The `oid_str` id conversion.
- **Client meets backend.** How the backend reads the client's payload, and how a stored report comes back to the client's card.

Where the source mutates state, the model uses classes with `modifies` frames:

- the notification storage and provider;
- the profile provider;
- the report, chat, profile and connection screens;
- the app's navigation state;
- the browser's `localStorage` and current page;
- the MongoDB collections.

Each method is proved against a specification function, and the properties are proved about those functions. Pure list and record logic is modelled as functions and lemmas.

Some things become parameters of the model:

- the clock, the local-calendar date step and generated ids;
- the message `JSON.parse` throws on a body that is not JSON;
- number-to-text rendering and locale date formatting;
- `isoformat` and `repr` of backend values;
- bcrypt, and JWT encoding and decoding;
- reading an uploaded file;
- the answers of `fetch`, AsyncStorage and the chat model.

Module files:

| file | models |
|---|---|
| `wrappers.dfy`, `text.dfy`, `seqs.dfy`, `bson.dfy` | shared values: Option/Result, JavaScript string operations, filtering, Python/BSON values |
| `notification_model.dfy`, `notification_service.dfy`, `notification_context.dfy` | mobile/services/NotificationService.ts, mobile/components/notifications/NotificationContext.tsx |
| `user_profile.dfy` | mobile/components/profile/UserProfileContext.tsx |
| `api.dfy` | mobile/services/api.ts |
| `report_screen.dfy`, `chat_screen.dfy`, `app_navigation.dfy`, `profile_screen.dfy`, `my_reports_screen.dfy`, `connection_check.dfy` | the mobile screens of the same names and mobile/app/index.tsx |
| `safety_service.dfy` | mobile/services/geminiSafetyService.ts |
| `dashboard.dfy` | website/script.js |
| `db.dfy` | backend/db.py and the collections |
| `auth_routes.dfy`, `reports_routes.dfy` | backend/routes/auth.py, backend/routes/reports.py |
| `report_submission.dfy` | the client's payload as the backend reads it, and a stored report as the client shows it |

In a few places the code does less, or something else, than its comments and names suggest; the model follows the code:

- `handleSubmit` in ReportScreen checks only the incident type, the location and the description. It never checks the contact fields, even when the report is not anonymous.
- `submitReport` sets an explicit `multipart/form-data` Content-Type. It sends no bearer token, no `user_id` and no witnesses.
- `api.ts` has no login, register or token functions.
- `ACCESS_TOKEN_EXPIRE_MINUTES` (30) is never used, so issued tokens last fifteen minutes.
- The client names the incident type `incident_type`; the backend reads `incidentType`.
- The backend declares `/reports/{report_id}` before `/reports/geojson`.

## Model

| member | source | states |
|---|---|---|
| NotificationService.WithReadFlag | mobile/services/NotificationService.ts:63-65 | same length; an entry with the id gets the flag, every other entry is unchanged |
| NotificationService.AllRead | mobile/services/NotificationService.ts:73-76 | same length; every entry is the original with `read` set |
| NotificationService.MergeSettings | mobile/services/NotificationService.ts:113 | each toggle is the patch's value when supplied, else the current one |
| NotificationService.Stamp | mobile/services/NotificationService.ts:19-24 | the new notification is unread, carries the given id and time and every draft field |
| NotificationService.LocationDraft | mobile/services/NotificationService.ts:127-145 | an incident type gives an `incident_report` draft, none a `warning`; medium priority; the location is attached |
| NotificationService.MarkReadExactly | mobile/services/NotificationService.ts:61-68 | exactly the entries with the id become read, the rest are untouched, and marking twice is marking once |
| NotificationService.WithReadFlagUnknownId | mobile/services/NotificationService.ts:63-65 | marking an id no entry has leaves the list as it was |
| NotificationService.AllReadHasNoUnread | mobile/services/NotificationService.ts:71-79 | after marking all read, the unread list is empty |
| NotificationService.WithoutUnknownIdKeepsAll | mobile/services/NotificationService.ts:82-89 | deleting an id no entry carries leaves the list as it was |
| NotificationService.WithoutIdKeepsOrder | mobile/services/NotificationService.ts:84-86 | deletion distributes over concatenation, so survivors keep their order |
| NotificationService.WithoutId | mobile/services/NotificationService.ts:84-86 | the entries kept are exactly those of the list whose id differs |
| NotificationService.NewerThan | mobile/services/NotificationService.ts:196-198 | the entries kept are exactly those of the list strictly newer than the cutoff |
| NotificationService.NewerThanKeepsOrder | mobile/services/NotificationService.ts:196-198 | cleanup distributes over concatenation, so the kept entries stay in order |
| NotificationService.SoundOffOnDefaults | mobile/services/NotificationService.ts:9-15 | a sound-off patch over the defaults changes only the sound toggle |
| NotificationService.MergeEmptyPatch | mobile/services/NotificationService.ts:113 | an empty patch keeps the settings |
| NotificationService.MergeIdempotent | mobile/services/NotificationService.ts:111-117 | applying a patch twice equals applying it once |
| NotificationService.NotificationStore.constructor | mobile/services/NotificationService.ts:4-5 | a fresh device has no list and no settings stored |
| NotificationService.NotificationStore.GetNotifications | mobile/services/NotificationService.ts:36-52 | answers the stored list, or [] when nothing is stored or the read fails (the failure is caught) |
| NotificationService.NotificationStore.GetUnreadNotifications | mobile/services/NotificationService.ts:55-58 | answers exactly the unread entries of the list read, as many as are unread; none after a failed read |
| NotificationService.NotificationStore.CreateNotification | mobile/services/NotificationService.ts:18-33 | the stamped notification is prepended to the list read and stored; after a failed read it is stored alone, replacing the earlier list; settings unchanged |
| NotificationService.NotificationStore.MarkAsRead | mobile/services/NotificationService.ts:61-68 | the stored list becomes the list read with that id marked read; a failed read stores [] |
| NotificationService.NotificationStore.MarkAllAsRead | mobile/services/NotificationService.ts:71-79 | the stored list becomes the list read with every entry read; a failed read stores [] |
| NotificationService.NotificationStore.DeleteNotification | mobile/services/NotificationService.ts:82-89 | the stored list becomes the list read without the entries carrying that id; a failed read stores [] |
| NotificationService.NotificationStore.ClearAllNotifications | mobile/services/NotificationService.ts:92-94 | the stored list becomes empty; settings unchanged |
| NotificationService.NotificationStore.GetSettings | mobile/services/NotificationService.ts:97-108 | answers the stored settings, or the all-on defaults when none are stored or the read fails |
| NotificationService.NotificationStore.UpdateSettings | mobile/services/NotificationService.ts:111-117 | stores and answers the patch merged over the settings read (the defaults after a failed read); the list is untouched |
| NotificationService.NotificationStore.GenerateLocationBasedNotification | mobile/services/NotificationService.ts:120-146 | with location alerts off in the settings read nothing is created; otherwise the location draft is stamped and prepended to the list read |
| NotificationService.NotificationStore.GenerateSafetyAlert | mobile/services/NotificationService.ts:149-171 | the same unread alert is answered either way; it is prepended to the list read only when safety alerts are on in the settings read |
| NotificationService.NotificationStore.GenerateIncidentReportNotification | mobile/services/NotificationService.ts:174-188 | with incident alerts off in the settings read nothing is created; otherwise a medium `incident_report` naming title and location is prepended to the list read |
| NotificationService.NotificationStore.CleanupOldNotifications | mobile/services/NotificationService.ts:191-201 | keeps exactly the entries of the list read that are newer than thirty calendar days before now (the clock's local-date step), in order |
| NotificationContext.Reduce | mobile/components/notifications/NotificationContext.tsx:35-94 | each action's new state: a set list recounts and stops loading, an add prepends and bumps the count for an unread entry, update/delete/mark-all recount, clear empties |
| NotificationContext.ReducePreservesCount | mobile/components/notifications/NotificationContext.tsx:35-94 | every action keeps the badge count equal to the number of unread entries when it was so before |
| NotificationContext.RecomputingActionsRestoreCount | mobile/components/notifications/NotificationContext.tsx:37-85 | every action except add and set-loading makes the count right from any state |
| NotificationContext.AddKeepsCountGap | mobile/components/notifications/NotificationContext.tsx:45-51 | adding leaves the difference between stored and true count as it was |
| NotificationContext.ReachableStatesConsistent | mobile/components/notifications/NotificationContext.tsx:20-24 | in every state reachable from the initial state by actions, the count is the number of unread entries |
| NotificationContext.NotificationProvider.constructor | mobile/components/notifications/NotificationContext.tsx:98-99 | the provider starts from the initial state over the given store |
| NotificationContext.NotificationProvider.InitializeNotifications | mobile/components/notifications/NotificationContext.tsx:106-117 | the view becomes the list read (empty after a failed read) with its unread count, not loading |
| NotificationContext.NotificationProvider.RefreshNotifications | mobile/components/notifications/NotificationContext.tsx:119-126 | the view becomes the list read with a consistent count; after a good read it is the stored list |
| NotificationContext.NotificationProvider.MarkAsRead | mobile/components/notifications/NotificationContext.tsx:128-135 | on a successful write the store holds the list read with the id marked read (so [] after a failed read) and the view follows; on a failed write nothing changes; count consistency is kept, and store/view agreement after a good read |
| NotificationContext.NotificationProvider.MarkAllAsRead | mobile/components/notifications/NotificationContext.tsx:137-144 | as above for marking everything read |
| NotificationContext.NotificationProvider.DeleteNotification | mobile/components/notifications/NotificationContext.tsx:146-153 | as above for deleting by id |
| NotificationContext.NotificationProvider.ClearAllNotifications | mobile/components/notifications/NotificationContext.tsx:155-162 | on a successful write store and view become empty; on a failed write nothing changes; store/view agreement and count consistency are kept |
| UserProfileContext.PatchUser | mobile/components/profile/UserProfileContext.tsx:54 | every field the patch supplies wins, every other field is the user's own |
| UserProfileContext.PatchUserIdempotent | mobile/components/profile/UserProfileContext.tsx:106-111 | patching twice with the same patch is patching once, which is why the second dispatch of `updateUser` changes nothing |
| UserProfileContext.ReplaceById | mobile/components/profile/UserProfileContext.tsx:62-64 | same length; every report with the replacement's id becomes the replacement, the rest are kept |
| UserProfileContext.ReplaceUnknownIdIsNoop | mobile/components/profile/UserProfileContext.tsx:59-65 | replacing an id that is not in the list changes nothing |
| UserProfileContext.ReplaceByIdIdempotent | mobile/components/profile/UserProfileContext.tsx:59-65 | replacing twice is replacing once |
| UserProfileContext.Reduce | mobile/components/profile/UserProfileContext.tsx:49-73 | the new state for each action: set/patch the user (a patch with nobody signed in keeps nobody), append, set or replace reports, set loading, reset on clear |
| UserProfileContext.UserChangesOnlyThroughUserActions | mobile/components/profile/UserProfileContext.tsx:49-73 | only the user actions touch the user, and a patch never signs anybody in or out |
| UserProfileContext.ShowCoordinate | mobile/components/profile/UserProfileContext.tsx:128 | a coordinate is rendered as a number, or as `undefined` past the end of the array |
| UserProfileContext.MappedLocation | mobile/components/profile/UserProfileContext.tsx:128 | a text location is shown as is, a coordinate array as latitude (index 1) then longitude (index 0), anything else as "" |
| UserProfileContext.MapRecord | mobile/components/profile/UserProfileContext.tsx:124-131 | id is `id` or else `_id`; the title is the incident type or "Report" and never empty; description defaults to ""; date is formatted only when present; status is pending; no other field is set |
| UserProfileContext.MapRecords | mobile/components/profile/UserProfileContext.tsx:124 | a null answer maps to []; otherwise one mapped report per record, in order |
| UserProfileContext.FetchedReportsArePending | mobile/components/profile/UserProfileContext.tsx:130 | every fetched report shows as pending |
| UserProfileContext.UserProfileProvider.constructor | mobile/components/profile/UserProfileContext.tsx:43-47 | the provider starts with nobody signed in, no reports, not loading |
| UserProfileContext.UserProfileProvider.Dispatch | mobile/components/profile/UserProfileContext.tsx:100-150 | the state becomes the reducer applied to it |
| UserProfileContext.UserProfileProvider.UpdateUser | mobile/components/profile/UserProfileContext.tsx:106-111 | the net effect of both dispatches is one `UPDATE_USER` |
| UserProfileContext.UserProfileProvider.FetchMyReports | mobile/components/profile/UserProfileContext.tsx:117-138 | requests the first 100 reports of the user; a good answer replaces the reports with the mapped list, a failure keeps them; loading ends off and the user is untouched |
| Api.BaseUrl | mobile/services/api.ts:6-11 | a defined environment URL wins even when empty; otherwise the Android emulator host or localhost, port 8000 |
| Api.FieldNamed | mobile/services/api.ts:44-59 | a wire name maps back to the field that carries it |
| Api.WireNameRoundTrip | mobile/services/api.ts:44-59 | every field is recovered from its wire name, so no two fields share a name |
| Api.LookupAppend | mobile/services/api.ts:44-59 | after an append the new field is visible under its name unless that name was already present; other names are unaffected |
| Api.FieldAt | mobile/services/api.ts:44-59 | the field appended at each position has that rank |
| Api.FieldAtRank | mobile/services/api.ts:44-59 | positions and fields correspond one to one |
| Api.SentFieldsMeaning | mobile/services/api.ts:44-59 | after k append steps the payload is in append order, holds only fields of rank below k, and holds each such field exactly when it is set, with its value |
| Api.AppendIfSet | mobile/services/api.ts:45-54 | one conditional append moves the payload from k steps to k+1 |
| Api.BuildReportForm | mobile/services/api.ts:41-60 | the payload opens with `incident_type`, is in append order and carries each field exactly when the client considers it set, with its value |
| Api.FullPayload | mobile/services/api.ts:41-60 | the complete payload opens with the incident type, is ordered, and carries exactly the set fields |
| Api.FirstSentField | mobile/services/api.ts:44 | the incident type is always the first part |
| Api.SpecialFieldValues | mobile/services/api.ts:49-54 | `anonymous: false` is still sent as "false"; a zero coordinate and an empty contact string are dropped |
| Api.JsString | mobile/services/api.ts:72 | `String` of a JSON value: a string is itself, every object `[object Object]`, the empty array the empty text |
| Api.JoinedElements | mobile/services/api.ts:72 | an array of one non-null element prints as that element |
| Api.SubmitErrorMessage | mobile/services/api.ts:70-73 | a failed submission reports the `String` of the body's `detail` when that is truthy (a non-empty string as itself), else `HTTP error! status: <code>`; a body that is not JSON counts as `{}` |
| Api.ValidationErrorMessages | mobile/services/api.ts:70-73 | a 422 `detail` list of one object reaches the user as `[object Object]`, an empty list as the empty message |
| Api.SubmitReport | mobile/services/api.ts:39-81 | a multipart POST to `/reports` whose payload is exactly the twelve fields as sent, with an explicit content type; a network error or a non-ok status fails with its message; an ok answer is the parsed body or the parser's error |
| Api.GetReports | mobile/services/api.ts:89-105 | the URL carries skip and limit and, for a non-empty user id, the encoded id; a non-ok status fails with the HTTP message; an ok answer is the parsed body or the parser's error |
| Api.UserIdCannotInjectParameters | mobile/services/api.ts:92 | after `&user_id=` the URL holds no `&`, `=`, `#` or `?`, so the id cannot add a parameter |
| Api.GetReportById | mobile/services/api.ts:112-129 | 404 fails with "Report not found", another non-ok status with the HTTP message; an ok answer is the parsed record or the parser's error |
| Api.CheckConnection | mobile/services/api.ts:132-146 | `/health` is fetched; a non-ok status fails with the health-check message; an ok answer is the parsed body or the parser's error |
| ReportScreen.WithText | mobile/components/report/ReportScreen.tsx:155 | typing into one input sets that field and leaves every other field, the type and the anonymity flag as they were |
| ReportScreen.WithTextRestores | mobile/components/report/ReportScreen.tsx:155 | typing a field's old text back restores the whole form |
| ReportScreen.SubmitVerdict | mobile/components/report/ReportScreen.tsx:88-97 | rejected exactly when the incident type, location or description is empty, with "Please fill in all required fields" |
| ReportScreen.SubmitIgnoresOtherFields | mobile/components/report/ReportScreen.tsx:89 | two forms that agree on the three required fields get the same verdict |
| ReportScreen.ContactInputsShownButUnchecked | mobile/components/report/ReportScreen.tsx:88-97 | turning anonymity off shows the contact inputs (line 253), while the verdict is the same whatever they hold, and the same as before the switch |
| ReportScreen.MissingContactAccepted | mobile/components/report/ReportScreen.tsx:88-97 | a non-anonymous report with empty name, phone and email is accepted |
| ReportScreen.VerifyPermissions | mobile/components/report/ReportScreen.tsx:56-71 | asks exactly when the status is undetermined and then returns the answer; alerts and refuses exactly when denied; otherwise allows |
| ReportScreen.ReportForm.constructor | mobile/components/report/ReportScreen.tsx:39-53 | the form opens empty and anonymous, with the picker closed and no image |
| ReportScreen.ReportForm.ToggleTypePicker | mobile/components/report/ReportScreen.tsx:118 | the picker flips; nothing else changes |
| ReportScreen.ReportForm.PickType | mobile/components/report/ReportScreen.tsx:135-138 | only the type changes and the picker closes |
| ReportScreen.ReportForm.ChangeText | mobile/components/report/ReportScreen.tsx:155-290 | only that input's field changes |
| ReportScreen.ReportForm.SetAnonymous | mobile/components/report/ReportScreen.tsx:242-246 | only the anonymity flag changes; the contact inputs are shown exactly when it is switched off |
| ReportScreen.ReportForm.HandleSubmit | mobile/components/report/ReportScreen.tsx:88-97 | shows the submit verdict and goes back exactly when it is accepted |
| ReportScreen.ReportForm.TakeImage | mobile/components/report/ReportScreen.tsx:73-86 | the camera opens exactly when permission is granted; a capture that is not cancelled sets the image to its first asset, otherwise the image is kept |
| ChatScreen.HistoryOf | mobile/components/chat/ChatScreen.tsx:83-88 | one history entry per message, in order: role `user` for the user's messages and `model` for the assistant's, with the message text as the only part |
| ChatScreen.HistoryOfAppend | mobile/components/chat/ChatScreen.tsx:83-88 | the history of a longer conversation extends the history of its start |
| ChatScreen.ReplyText | mobile/components/chat/ChatScreen.tsx:94-120 | a thrown call gives the error apology, a missing or blank reply the empty-reply apology, any other reply itself |
| ChatScreen.Chat.constructor | mobile/components/chat/ChatScreen.tsx:28-37 | the chat opens with one system greeting with id "1", an empty input and nothing loading |
| ChatScreen.Chat.SetInputText | mobile/components/chat/ChatScreen.tsx:193 | only the input text changes |
| ChatScreen.Chat.BeginSend | mobile/components/chat/ChatScreen.tsx:65-91 | starts exactly when the input is not blank and nothing is loading; then appends the untrimmed user message, clears the input, starts loading and passes the prompt with the history of the earlier messages; otherwise nothing changes |
| ChatScreen.Chat.CompleteSend | mobile/components/chat/ChatScreen.tsx:93-122 | appends exactly one system message with the reply text and stops loading |
| ChatScreen.Chat.HandleSend | mobile/components/chat/ChatScreen.tsx:65-129 | a send that starts adds exactly two messages, the user's and the answer, and ends with loading off |
| AppNavigation.RenderScreen | mobile/app/index.tsx:64-116 | each of the six screen names renders its own screen (home with the user kind); any other name renders the welcome screen |
| AppNavigation.Wired | mobile/app/index.tsx:64-116 | the callbacks each rendered screen is given |
| AppNavigation.RenderKnownScreens | mobile/app/index.tsx:64-116 | each screen's name renders that screen: welcome only for `welcome`, home only for `home` |
| AppNavigation.App.constructor | mobile/app/index.tsx:15-16 | the app opens on the welcome screen with no user kind |
| AppNavigation.App.HandleSignIn | mobile/app/index.tsx:18-20 | goes to the login screen; the user kind is kept |
| AppNavigation.App.HandleSignUp | mobile/app/index.tsx:22-24 | goes to the sign-up screen; the user kind is kept |
| AppNavigation.App.HandleContinueAsGuest | mobile/app/index.tsx:26-29 | goes home as a guest |
| AppNavigation.App.HandleLogin | mobile/app/index.tsx:31-34 | goes home as a signed-in user |
| AppNavigation.App.HandleAdminLogin | mobile/app/index.tsx:36-39 | goes to the admin screen as an admin |
| AppNavigation.App.HandleRegister | mobile/app/index.tsx:41-44 | the same outcome as a login |
| AppNavigation.App.HandleBackToWelcome | mobile/app/index.tsx:46-49 | back to welcome with no user kind |
| AppNavigation.App.HandleBackToHome | mobile/app/index.tsx:51-53 | goes home; the user kind is kept |
| AppNavigation.App.HandleReport | mobile/app/index.tsx:55-57 | goes to the report screen; the user kind is kept |
| AppNavigation.App.HandleLogout | mobile/app/index.tsx:59-62 | back to welcome with no user kind |
| AppNavigation.App.Fire | mobile/app/index.tsx:18-116 | any callback the current screen wires keeps the pairing of screen and user kind (start screens: none; home and report: guest or user; admin: admin), so the home screen's cast of the user kind is sound |
| ProfileScreen.PasswordChangeVerdict | mobile/components/profile/ProfileScreen.tsx:48-66 | accepted exactly when the entries match and are at least six UTF-16 units long; a mismatch is reported first, then the length |
| ProfileScreen.MismatchReportedBeforeLength | mobile/components/profile/ProfileScreen.tsx:50-58 | a mismatch is reported even when the new password is also too short |
| ProfileScreen.AstralCharactersCountTwice | mobile/components/profile/ProfileScreen.tsx:55 | three characters beyond the Basic Multilingual Plane count as six, so they pass the length check |
| ProfileScreen.Profile.constructor | mobile/components/profile/ProfileScreen.tsx:28-36 | the edit fields start from the signed-in user's values or "", both forms closed, password fields empty |
| ProfileScreen.Profile.Type | mobile/components/profile/ProfileScreen.tsx:118-238 | typing into one input changes only that input's field |
| ProfileScreen.Profile.ToggleEditing | mobile/components/profile/ProfileScreen.tsx:100 | the profile form opens or closes; the password form is untouched |
| ProfileScreen.Profile.TogglePasswordForm | mobile/components/profile/ProfileScreen.tsx:178 | the password form opens or closes; the profile form is untouched |
| ProfileScreen.Profile.HandleSave | mobile/components/profile/ProfileScreen.tsx:41-46 | with nobody signed in nothing changes; otherwise the user's name, email and phone become the edited values and the form closes; the reports are untouched |
| ProfileScreen.Profile.HandleChangePassword | mobile/components/profile/ProfileScreen.tsx:48-66 | answers the password verdict; an accepted change clears the three password fields and closes the form, a rejected one changes nothing |
| MyReportsScreen.EndsWithAny | mobile/components/profile/MyReportsScreen.tsx:33 | `some(endsWith)` holds exactly when one of the extensions ends the string |
| MyReportsScreen.IsVideoFileIgnoresCase | mobile/components/profile/MyReportsScreen.tsx:31-34 | the video check gives the same answer for a uri and its lower-cased form |
| MyReportsScreen.IsVideoFile | mobile/components/profile/MyReportsScreen.tsx:31-34 | a uri is a video exactly when its lower-cased form ends with one of the ten extensions |
| MyReportsScreen.UpperCaseVideoExample | mobile/components/profile/MyReportsScreen.tsx:31-34 | `clip.MP4` is a video |
| MyReportsScreen.LastCharRulesOutSuffix | mobile/components/profile/MyReportsScreen.tsx:33 | a string whose last character differs from a suffix's last character does not end with it |
| MyReportsScreen.ImageExample | mobile/components/profile/MyReportsScreen.tsx:31-34 | `photo.jpg` is not a video |
| MyReportsScreen.StatusLabel | mobile/components/profile/MyReportsScreen.tsx:60-66 | `resolved` and `in-progress` get their own badge; every other status shows Pending |
| MyReportsScreen.CardOf | mobile/components/profile/MyReportsScreen.tsx:57-120 | the card's rows: missing time and witnesses show N/A, the contact rows appear exactly for a report not marked anonymous, a media uri gives a video or image preview by its extension |
| MyReportsScreen.RenderReports | mobile/components/profile/MyReportsScreen.tsx:48-123 | no reports gives the empty state; otherwise one card per report, in order |
| MyReportsScreen.FetchedReportCard | mobile/components/profile/MyReportsScreen.tsx:57-120 | a report fetched from the backend shows Pending, "No" for anonymous and N/A contact rows, time and witnesses, without a preview |
| ConnectionCheck.RenderContent | mobile/components/connection/ConnectionCheckScreen.tsx:38-72 | the connecting view exactly while the status is `checking` or the flag is set, the failure view exactly when disconnected with the flag clear, the success view exactly when connected with the flag clear |
| ConnectionCheck.Screen.constructor | mobile/components/connection/ConnectionCheckScreen.tsx:11-12 | the screen opens checking |
| ConnectionCheck.Screen.CheckBackendConnection | mobile/components/connection/ConnectionCheckScreen.tsx:15-33 | as written: "ok" marks the screen connected and schedules the move home but leaves the flag set; anything else or an error marks it disconnected and clears the flag; the reachable-state invariant is kept |
| ConnectionCheck.Screen.CheckBackendConnectionClearingFlag | mobile/components/connection/ConnectionCheckScreen.tsx:15-33 | corrected: an "ok" answer also clears the flag, so the success view is shown |
| ConnectionCheck.SuccessViewUnreachable | mobile/components/connection/ConnectionCheckScreen.tsx:18-23 | in every state the screen can reach, the success view is never shown |
| ConnectionCheck.HealthyAnswerStillConnecting | mobile/components/connection/ConnectionCheckScreen.tsx:39 | after a healthy answer the connecting view stays up |
| SafetyService.EveryEntryHasFourTips | mobile/services/geminiSafetyService.ts:10-66 | every entry of the table carries four tips |
| SafetyService.FirstMatch | mobile/services/geminiSafetyService.ts:72-79 | nothing exactly when no entry matches; otherwise the entry found matches and no earlier entry does |
| SafetyService.FindFirstMatch | mobile/services/geminiSafetyService.ts:72-79 | the loop returns the first matching entry in table order, or nothing |
| SafetyService.GetSafetyInfoForLocation | mobile/services/geminiSafetyService.ts:68-80 | the input is lower-cased then trimmed; the answer is the first match and always one of the five entries |
| SafetyService.BlankInputFindsKingston | mobile/services/geminiSafetyService.ts:69-73 | a blank input normalises to "", which every name contains, so it finds Kingston |
| SafetyService.GenerateSafetyRouteAdvice | mobile/services/geminiSafetyService.ts:82-96 | the advice is the header naming both places followed by the same eight bullet lines for every route |
| Dashboard.StrengthScore | website/script.js:77-89 | the number of criteria met, at most four |
| Dashboard.StrengthClass | website/script.js:91-98 | no class exactly for score 0, weak exactly for 1, medium exactly for 2 or 3, strong exactly for 4 |
| Dashboard.CheckPasswordStrength | website/script.js:65-99 | the criteria counted one by one give the score, and the bar gets the class for it |
| Dashboard.StrengthExamples | website/script.js:77-89 | the empty password scores 0; `Admin123!` scores 4 |
| Dashboard.AddUserVerdict | website/script.js:113-123 | accepted exactly when the entries match and are at least eight UTF-16 units long; a mismatch is reported first |
| Dashboard.HandleAddUser | website/script.js:105-167 | a rejection shows its message and creates nothing; an acceptance collects the record with the password and the creation time and shows the confirmation naming the user, the role text, email and username |
| Dashboard.ChangePasswordVerdict | website/script.js:327-346 | accepted exactly when the entries match, are at least eight long and contain a digit and a listed special character; the three rejections in that order |
| Dashboard.ChangeAcceptedIsStrongEnough | website/script.js:320-346 | a password the change form accepts passes the add-user check and scores at least three strength criteria |
| Dashboard.FindAccount | website/script.js:265 | nothing exactly when no account has that email and password; otherwise the account at the first position that does |
| Dashboard.AdminLoginTarget | website/script.js:274-283 | a first login goes to the password change, else an admin to the admin dashboard and anyone else to the law-enforcement dashboard |
| Dashboard.Browser.constructor | website/script.js:12-17 | the browser holds the four test accounts, empty storage and the given page |
| Dashboard.Browser.HandleAdminLogin | website/script.js:258-287 | no matching account: an alert and nothing changes; otherwise role, email and department (or "admin") are stored, a first login is flagged, and the page is the login target |
| Dashboard.Browser.HandleLawEnforcementLogin | website/script.js:290-314 | no matching account: an alert and nothing changes; otherwise role, email, the department text (`undefined` for the admin), badge and department are stored, and a first login is flagged and sent to the password change |
| Dashboard.Browser.HandleChangePassword | website/script.js:320-364 | a rejection changes nothing; an acceptance records the change, drops the pending flag and goes to the dashboard of the stored user type, else to the admin login |
| Dashboard.FirstLoginThenChange | website/script.js:290-364 | a first law-enforcement login followed by an accepted change ends on the law-enforcement dashboard with the change recorded and no pending flag |
| Dashboard.SectionTitle | website/script.js:396-407 | a known section gets its own title, any other id "Dashboard" |
| Dashboard.SectionTitleNeverEmpty | website/script.js:407 | every section id gets a non-empty title |
| Db.OidStrOf | backend/db.py:19-25 | `_id` becomes its text; a `media_id` becomes its text plus the `/media/<id>` URL; every other key keeps its value and no other key is added |
| Db.OidStrKeeps | backend/db.py:19-25 | any key other than `_id`, `media_id` and `media_url` is present after `oid_str` exactly when it was before, with the same value |
| Db.OidStrIdempotent | backend/db.py:19-25 | applying `oid_str` to its own result changes nothing |
| Db.OidStr | backend/db.py:19-25 | answers a fresh dict holding the converted document and leaves the argument unchanged |
| Db.FindFirst | backend/routes/auth.py:60 | `find_one` in natural order: nothing exactly when no document has that value, else the first one that does |
| Db.FindById | backend/routes/auth.py:104-107 | with distinct ids, a lookup by a document's own `_id` finds that document |
| Db.AppendKeepsIdsValid | backend/routes/reports.py:46 | inserting a document under an unused object id keeps the ids present and distinct |
| Db.StampKeepsIdsValid | backend/routes/auth.py:104-107 | setting a field other than `_id` on one document keeps the ids present and distinct |
| Db.Database.constructor | backend/db.py:7-17 | a fresh database has empty collections and no files, has the geospatial index exactly when its creation succeeded, and is valid |
| AuthRoutes.TokenClaims | backend/routes/auth.py:28-34 | the claims are a copy of the data plus `exp`, set to now plus the delta, or plus fifteen minutes when the delta is absent or zero |
| AuthRoutes.CreateAccessToken | backend/routes/auth.py:28-36 | the token is the encoding of those claims |
| AuthRoutes.IssuedTokensLastFifteenMinutes | backend/routes/auth.py:20-36 | the routes pass no delta, so their tokens expire after fifteen minutes, not the thirty the constant names |
| AuthRoutes.TokenData | backend/routes/auth.py:82-83 | the token payload holds exactly the user id as text and the email |
| AuthRoutes.GetCurrentUser | backend/routes/auth.py:38-47 | as written: succeeds exactly for a token that decodes to a payload with a non-`None` `user_id`, and answers that id; every failure is a 500, because the `except` clause names an attribute the imported module lacks |
| AuthRoutes.GetCurrentUserCatchingJwtErrors | backend/routes/auth.py:38-47 | as intended: the same successes; every failure is 401 "Could not validate credentials" |
| AuthRoutes.RefusedTokensAreServerErrors | backend/routes/auth.py:38-47 | the two readings agree on every accepted token, and a token the intended check refuses with 401 is a 500 as written |
| AuthRoutes.IssuedTokenAuthenticates | backend/routes/auth.py:28-47 | when decoding inverts encoding, a token the routes issue authenticates as its user id, as written and as intended |
| AuthRoutes.NewUserDoc | backend/routes/auth.py:68-75 | the inserted user has exactly email, hashed password, full name, phone and the two timestamps |
| AuthRoutes.Register | backend/routes/auth.py:49-88 | 400 unless email, password and full name are truthy; 400 for a known email; a 500 with nothing stored for a password that is not a string; otherwise one document is appended under the fresh id and the answer is a token for that id with the document, `_id` as text and no password |
| AuthRoutes.RegisterOnlyAppends | backend/routes/auth.py:49-88 | registration keeps every existing user and the ids valid; it appends exactly one user when it succeeds and changes nothing when it fails |
| AuthRoutes.RegisterUser | backend/routes/auth.py:49-88 | the endpoint's answer and `users` collection are those of `Register`; reports and files are untouched |
| AuthRoutes.LoginResponseUser | backend/routes/auth.py:114-122 | the answered user has the seven listed keys, no password, and the `last_login` read before this login's stamp |
| AuthRoutes.Login | backend/routes/auth.py:90-124 | 400 unless email and password are truthy; the same 401 for an unknown email and a wrong password; a 500 when the email finds a user but the password is not a string; otherwise the found user's `last_login` becomes now and the answer is a token for its id and email with the user as found |
| AuthRoutes.LoginKeepsIds | backend/routes/auth.py:103-107 | login keeps the collection's size and valid ids and changes a document only by stamping `last_login` |
| AuthRoutes.LoginUser | backend/routes/auth.py:90-124 | the endpoint's answer and `users` collection are those of `Login`; `update_one` by `_id` stamps the found user; reports and files are untouched |
| AuthRoutes.RegistrationData | backend/routes/auth.py:51-54 | a registration body carries the email, password and full name, and no phone |
| AuthRoutes.Credentials | backend/routes/auth.py:92-93 | a login body carries the email and password |
| AuthRoutes.RegisteredUser | backend/routes/auth.py:68-79 | the stored user has the email, the hashed password and the fresh id |
| AuthRoutes.RegisterAppendsUser | backend/routes/auth.py:56-78 | a registration with the three fields and a new email succeeds and appends its document |
| AuthRoutes.AppendedUserFound | backend/routes/auth.py:99 | a user appended with an email no earlier user has is the one `find_one` finds by that email |
| AuthRoutes.LoginStampsFoundUser | backend/routes/auth.py:95-107 | a login whose email finds a user and whose password that user's hash accepts succeeds and stamps that user |
| AuthRoutes.RegisteredUserCanLogIn | backend/routes/auth.py:49-124 | a user registered with a new email can log in with the same password: both succeed and the new user is the one stamped |
| AuthRoutes.RegisterThenLogin | backend/routes/auth.py:49-124 | through the endpoints: both succeed, the collection grows by one, and that user carries the login time |
| ReportsRoutes.Point | backend/routes/reports.py:37-39 | a stored Point has exactly `type` "Point" and the coordinates longitude first, then latitude |
| ReportsRoutes.BaseReport | backend/routes/reports.py:24-35 | the starting document holds exactly the nine form fields (absent ones as `None`) and `createdAt` set to now |
| ReportsRoutes.StoredReport | backend/routes/reports.py:24-44 | the inserted document is the starting one, except that the location becomes a Point exactly when both coordinates are given and `media_id` is added exactly when a file is uploaded |
| ReportsRoutes.StoredReportFields | backend/routes/reports.py:24-44 | a stored report carries its incident type, a location and its creation time, and no `id`, `_id` or `media_url` before insertion |
| ReportsRoutes.CreateReport | backend/routes/reports.py:9-47 | the upload, if any, is appended to the files; the insert succeeds exactly when there is no geospatial index or it can key the location; then exactly that document plus the fresh `_id` is appended to the reports and the answer is `{"id": <id as text>}`; otherwise a 500 and the reports are unchanged; users are untouched |
| ReportsRoutes.StoredLocationIndexable | backend/routes/reports.py:24-46 | the index accepts a created report exactly when its coordinates lie on the globe or, without both coordinates, when no location text was sent |
| ReportsRoutes.Insert | backend/routes/reports.py:52 | one step of the descending sort keeps the documents: the result is the input plus the inserted document, as a multiset |
| ReportsRoutes.InsertNewestFirst | backend/routes/reports.py:52 | inserting into a newest-first sequence keeps it newest first |
| ReportsRoutes.SortNewestFirst | backend/routes/reports.py:52 | `sort("createdAt", -1)` is a permutation of the stored reports, of the same length |
| ReportsRoutes.SortIsNewestFirst | backend/routes/reports.py:52 | the sorted reports are in descending `createdAt` order, missing or non-date values last |
| ReportsRoutes.SortKeepsIds | backend/routes/reports.py:52 | sorting keeps every document's `_id` |
| ReportsRoutes.MapOidStr | backend/routes/reports.py:53 | the list comprehension applies `oid_str` to each document, in order |
| ReportsRoutes.ListReports | backend/routes/reports.py:50-53 | the answer holds `min(100, n)` documents: `oid_str` of the sorted reports' prefix, position by position |
| ReportsRoutes.OidStrKeepsCreatedKey | backend/routes/reports.py:53 | `oid_str` leaves the sort key unchanged |
| ReportsRoutes.ListReportsAreTheNewest | backend/routes/reports.py:50-53 | the listing is newest first, drawn from a permutation of the stored reports, and no report left out is newer than one returned |
| ReportsRoutes.GetReport | backend/routes/reports.py:56-64 | 400 "invalid id" exactly for text that is not twenty-four hex digits; otherwise 404 "not found" exactly when no report has that id; otherwise the report with its `_id` as the lower-case id text |
| ReportsRoutes.AppendedReportIsFound | backend/routes/reports.py:46-64 | a report appended under a fresh id is what `get_report` answers for that id |
| ReportsRoutes.CreateThenGet | backend/routes/reports.py:9-64 | creating a report and then getting it by the answered id gives back the stored document made JSON-ready; a report the index refused is answered 404 |
| ReportsRoutes.Feature | backend/routes/reports.py:73-81 | a Feature's `type` is "Feature" |
| ReportsRoutes.FeatureOf | backend/routes/reports.py:72-81 | a document's Feature can be built exactly when it has an `_id`, a location with coordinates and a falsy or date `createdAt` |
| ReportsRoutes.FeaturesStep | backend/routes/reports.py:71-81 | one more loop step extends the features by the next document's, or fails if it raises |
| ReportsRoutes.FeaturesFailFrom | backend/routes/reports.py:71-81 | once a document raises, the whole loop fails |
| ReportsRoutes.ReportsGeojson | backend/routes/reports.py:67-82 | the answer is the FeatureCollection of the features of the reports with a `location` key, in order, and a 500 exactly when one of them raises |
| ReportsRoutes.LocationWithoutPointBreaksGeojson | backend/routes/reports.py:69-72 | one report whose location holds no coordinates (text or `None`) makes the whole collection fail |
| ReportsRoutes.UnlocatedReportBreaksGeojson | backend/routes/reports.py:69-72 | a report created with neither coordinates nor location text is accepted by the index and then makes the whole collection fail |
| ReportsRoutes.ReportWithoutCoordinatesHasNoGeometry | backend/routes/reports.py:28-39 | a report created without both coordinates stores a location that has no coordinates |
| ReportsRoutes.BuildsFeature | backend/routes/reports.py:72-81 | a document with an id, coordinates and a usable `createdAt` yields a Feature |
| ReportsRoutes.ReportsGeojsonSkippingUnlocated | backend/routes/reports.py:67-82 | the corrected route never fails on reports with ids and usable dates, and answers the FeatureCollection of the reports that have coordinates |
| ReportsRoutes.CreatedReportsHaveDates | backend/routes/reports.py:34-79 | a created report's `createdAt` is always formatted, and it has coordinates when both were given |
| ReportsRoutes.FirstRoute | backend/routes/reports.py:9-67 | the router picks the first declared route matching the method and path, and none only when no route matches |
| ReportsRoutes.GeojsonRouteShadowed | backend/routes/reports.py:56-82 | `GET /reports/geojson` reaches `get_report`, which answers 400 "invalid id"; no request ever reaches `reports_geojson` |
| ReportsRoutes.CorrectedRoutesReachGeojson | backend/routes/reports.py:56-82 | with the fixed path declared first, `/reports/geojson` reaches the collection and every other request resolves as before |
| ReportSubmission.FormGetIsLookup | backend/routes/reports.py:10-23 | reading a form parameter under a field's wire name finds the first part the client appended for that field |
| ReportSubmission.FormGetUnknownName | backend/routes/reports.py:11 | a name the client never appends is never found in its form |
| ReportSubmission.OptionalText | backend/routes/reports.py:12-19 | an optional `str` is `None` exactly when absent or empty, its text when non-empty, and 422 exactly for a file part |
| ReportSubmission.RequiredText | backend/routes/reports.py:11 | a required `str` is its text exactly when a non-empty text part is sent; a file part is invalid, anything else missing |
| ReportSubmission.BoolParam | backend/routes/reports.py:16 | absent or empty gives the default; a text reads as its boolean or is invalid; a file part is invalid |
| ReportSubmission.FloatParam | backend/routes/reports.py:20-21 | absent or empty gives `None`; a text reads as its number or is invalid; a file part is invalid |
| ReportSubmission.FileParam | backend/routes/reports.py:22 | a file part is read as an upload with its name, type and bytes; absent or an empty text gives `None`; a non-empty text is invalid |
| ReportSubmission.ReadReportForm | backend/routes/reports.py:10-23 | a parsed form holds, field by field, what each parameter reads; a missing or invalid incident type is reported first |
| ReportSubmission.ParseBool | backend/routes/reports.py:16 | the `bool` parameter reads "true" as true and "false" as false |
| ReportSubmission.ParseBoolReadsFlag | mobile/services/api.ts:49 | the text `anonymous.toString()` produces reads back as the same flag |
| ReportSubmission.ReadsEveryParameter | backend/routes/reports.py:10-23 | when each of the twelve parameters reads successfully, the parsed form holds exactly those values |
| ReportSubmission.ParseCreateReportForm | backend/routes/reports.py:10-23 | a form without an `incidentType` part is refused as missing `incidentType` |
| ReportSubmission.ClientSubmissionAlwaysRejected | mobile/services/api.ts:44 | every payload the client builds is refused with 422: it names the type `incident_type`, which the backend never reads |
| ReportSubmission.ParseClientReportForm | backend/routes/reports.py:10-23 | with the type read under the client's name, a form without that part is refused as missing it |
| ReportSubmission.SentFieldsCarryReport | mobile/services/api.ts:44-60 | the built payload holds, under each field's wire name, that field's value exactly when the client sends the field |
| ReportSubmission.TextParamReadBack | mobile/services/api.ts:45-52 | an optional text the client sends only when non-empty reads back as that text, or `None` |
| ReportSubmission.NumberParamReadBack | mobile/services/api.ts:53-54 | a coordinate the client sends only when non-zero reads back as that number, or `None` |
| ReportSubmission.IncidentTypeReadBack | mobile/services/api.ts:44 | a non-empty incident type reads back under the client's name |
| ReportSubmission.AnonymousReadBack | mobile/services/api.ts:49 | the anonymity flag reads back, and is true when the client leaves it undefined |
| ReportSubmission.MediaReadBack | mobile/services/api.ts:57-60 | the media part reads back as an upload of the file's bytes, name and type |
| ReportSubmission.TextsReadBack | mobile/services/api.ts:45-52 | the seven optional texts all read back |
| ReportSubmission.CarriedReportReadBack | backend/routes/reports.py:10-23 | a form carrying a client report parses to what the client meant |
| ReportSubmission.ClientSubmissionRoundTrip | mobile/services/api.ts:39-60 | with the names agreeing, the backend reads back every non-empty text, the flag, the non-zero coordinates and the media |
| ReportSubmission.StoredPointJson | backend/routes/reports.py:37-39 | a listed report created with both coordinates shows its Point, its id as text and its type, and no `id` key |
| ReportSubmission.PointJsonRecord | mobile/components/profile/UserProfileContext.tsx:124-129 | the client receives a Point location as its coordinate list in stored order |
| ReportSubmission.PointRecordShown | mobile/components/profile/UserProfileContext.tsx:124-129 | a record holding `[lng, lat]` is shown as "lat, lng", under its `_id`, titled by its type |
| ReportSubmission.StoredPointShowsLatitudeFirst | mobile/components/profile/UserProfileContext.tsx:124-131 | the backend's longitude-first storage and the client's index swap cancel: a report's card shows the coordinates latitude first, as entered |
| Text.EncodeUriComponent | mobile/services/api.ts:92 | the encoded user id is no shorter than the id and holds only unreserved characters and `%`, so it cannot end or split the query |
| Text.EncodeUnreservedIdentity | mobile/services/api.ts:92 | an id made only of unreserved characters is sent unchanged |
| Text.Utf16Length | website/script.js:80 | `length` counts at least one and at most two units per character |
| Text.TrimEmptyIffBlank | mobile/components/chat/ChatScreen.tsx:66 | `trim() === ''` holds exactly for blank text |

## Left out

- Transport and storage are not modelled: `fetch`, `FormData` transmission, AsyncStorage, `localStorage` persistence, `window.location`, DOM updates, `alert`/`confirm`. Fetch and storage results are inputs of the model. A storage write that throws is the provider's `serviceOk` input: the failed call writes nothing and skips the dispatch. A storage read that throws is the `readOk` input: `getNotifications` and `getSettings` catch it and answer [] or the defaults, and the operation that asked goes on and stores its result over that empty list.
- The clock, `Date.now()` ids and generated ObjectIds are parameters. Ids are not assumed unique within a millisecond.
- Locale formatting (`toLocaleDateString`, `toLocaleTimeString`), JavaScript number-to-text rendering, `parseFloat` and `isoformat` are parameters, because they depend on the platform.
- The Gemini chat model is not part of this model. Its reply is an arbitrary string, or an error.
- bcrypt and the JWT library are function parameters. Every failure of `jwt.decode` is one `None` result. bcrypt refusing a password that is not a string is modelled; its other errors are not.
- MongoDB is modelled as sequences of documents, and only the queries the routes issue are modelled. Matching inside arrays and GridFS storage are not modelled. Of the indexes, only the geospatial index on `reports.location` is modelled. ObjectId text is compared after lower-casing, with no other normalisation.
- backend/app.py does not mount the auth router, so the auth routes cannot be reached in the deployed app. The routes are modelled as their module defines them.
- Each request reads the clock once, so `created_at` and `updated_at` of a new user hold the same time.
- Python dict key order is not modelled: documents are maps.
- ReportSubmission.FormGet: a repeated form field is read as its first value, where Starlette's form lookup answers the last value of a repeated key. The client sends each name at most once (`Api.SentFieldsMeaning` proves its payload is in field order, which is strictly increasing by rank), so its payloads read the same either way.
- ReportSubmission.ReadReportForm: the model's 422 names only the first failing parameter; FastAPI's `detail` lists every failing parameter.
- Pydantic's coercion is modelled for `str`, `bool`, `float` and `UploadFile` only.
- AuthRoutes.Login: the password, email and full name of the found user are read with a default. The source raises `KeyError` when they are absent; registration always sets them.
- Dashboard.SectionTitle: JavaScript prototype keys such as "toString" are not modelled as section ids.
- AuthRoutes.Register: an `email` that is a JSON object is a MongoDB query in `find_one` (`{"$ne": null}` matches any user, so the answer is 400 "User with this email already exists" as soon as one user exists); the model compares the email for equality.
- AuthRoutes.RegisterUser: the same object-email reading as `Register` is not modelled.
- AuthRoutes.Login: an object `email` such as `{"$ne": null}` finds the first user, and the password is then checked against that user's hash; the model compares the email for equality.
- AuthRoutes.LoginUser: the same object-email reading as `Login` is not modelled.
- Api.SubmitErrorMessage: an error body that parses as JSON but is not an object is not modelled. For `null`, reading `detail` throws a TypeError whose message the platform chooses; an array, number or string has no `detail` and gives the status line.
- SafetyService.GetSafetyInfoForLocation: lower-casing is ASCII-only, while `toLowerCase` maps every Unicode letter. The Kelvin sign U+212A becomes `k`, so "\u212Aingston" finds Kingston in the source but not in the model.
- MyReportsScreen.IsVideoFile: lower-casing is ASCII-only, while `toLowerCase` maps every Unicode letter.
- ReportSubmission.ParseBool: lower-casing is ASCII-only, while the backend lower-cases with Unicode rules.
- ReportsRoutes.CreateReport: the index is modelled for the values the route stores (a str, `None` or a Point). Non-finite coordinates (`nan`, `inf`, which `float` accepts) are not modelled, because coordinates are reals.
- ReportsRoutes.SortNewestFirst: ties are ordered as stored; MongoDB leaves the order of equal `createdAt` values unspecified, so the model fixes one order the server may return.
- AuthRoutes.RegisterThenLogin states that both calls succeed and that the collection holds the stamped user. It does not state the full login response, which `LoginUser` states.
- Timers are not modelled: the navigation delay, scrolling, and the dashboard's `setInterval`/`Math.random` badge simulation. Camera and permission APIs are inputs. Latitude, longitude and layout arithmetic are opaque. Rendering and styles are not modelled.
- The presentation-only screens are not part of this model: notifications, home, map, admin, welcome, login and sign-up. Neither are SafetyNotificationHelper.ts and the users, media and analytics routes.
- Concurrent read-modify-write calls on the notification store are not modelled: operations run one after another.

## Findings

| source | as written | input that shows it | evidently intended | confidence | as-written member | corrected member |
|---|---|---|---|---|---|---|
| mobile/components/connection/ConnectionCheckScreen.tsx:18-23 | an "ok" health answer sets the status to connected but never clears `checking`, and the connecting view is shown while `checking` is set | a health answer `{status: "ok"}` | show the success view before moving home | not executed | ConnectionCheck.SuccessViewUnreachable | ConnectionCheck.Screen.CheckBackendConnectionClearingFlag |
| backend/routes/reports.py:56-82 | `/{report_id}` is declared before `/geojson` and matches it first | `GET /reports/geojson` is answered 400 "invalid id" | serve the FeatureCollection | not executed | ReportsRoutes.GeojsonRouteShadowed | ReportsRoutes.CorrectedRoutesReachGeojson |
| backend/routes/reports.py:69-72 | every report has a `location` key, and one stored as `None` (or, without the geospatial index, as text) cannot be subscripted with "coordinates" | one report created with neither coordinates nor location text, whose location is stored as `None` | skip reports without a Point | not executed | ReportsRoutes.UnlocatedReportBreaksGeojson | ReportsRoutes.ReportsGeojsonSkippingUnlocated |
| backend/routes/auth.py:38-47 | the `except` clause names `jwt.JWTError`, which the PyJWT module imported on line 6 does not define, so every exception reaching it, the 401 raised inside the `try` included, becomes an `AttributeError` and a 500 | an expired token, or one whose payload has no `user_id` | answer 401 "Could not validate credentials" | not executed | AuthRoutes.RefusedTokensAreServerErrors | AuthRoutes.GetCurrentUserCatchingJwtErrors |
| mobile/services/api.ts:44 | the client sends the type as `incident_type`, but `create_report` requires `incidentType` (backend/routes/reports.py:11) | any report the client submits is refused with 422 | the backend reads the type the client sends | not executed | ReportSubmission.ClientSubmissionAlwaysRejected | ReportSubmission.ClientSubmissionRoundTrip |
