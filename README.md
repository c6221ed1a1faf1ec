# BuddyGuard role and record logic in Dafny

BuddyGuard is a school incident-reporting front end. Staff (Admin, Teacher,
Guidance) and anonymous reporters sign in by role. They file incident reports,
browse and filter the safety log, move incidents to new statuses, see
dashboard counters, and (Admin) toggle staff accounts. An optional AI
classifier suggests a category and a severity for a report.

This project models the logic behind those screens and proves properties of it:

- **Types**: the closed enumerations (roles, the eight incident categories in declaration order, the seven statuses, the three severities) and the `Incident` and `User` records.
- **Constants**: the sample incidents and users used as fallback and initial data.
- **GeminiService**: the null contracts of `analyzeIncident` and the re-casing of the suggested severity.
- **Layout**: the navigation table filtered by role, and the header title.
- **IncidentList**: mapping store rows to incidents with the sample fallback, the search/category/section filter, status updates, per-role status actions and status colours. The component state is the class `IncidentList.IncidentList`.
- **IncidentForm**: the initial form, the analysis guard, the record a submission inserts, and matching a suggested category into the closed category set. The component state is the class `IncidentForm.IncidentForm`.
- **Dashboard**: the four counters, the fixed fallback, and chart visibility.
- **ReportFlow**: the path of a suggested severity from the classifier, through the inserted record, to the dashboard counters.
- **UserManagement**: the `active` toggle over the staff directory.
- **App**: the session/view state machine and the screen dispatch.

Every call to the hosted store or to the AI model is a parameter that carries its outcome:

- `Result` means rows or an error.
- `Outcome` means Pass or Fail of a write.
- `ModelCall` means a parsed reply, or a thrown exception.
- The API key is an `Option<string>`.

`Wrappers`, `Text` (ASCII case mapping and substring search) and `Sequences` (order-preserving subsequence) are helpers.

The code itself suggests intentions it does not enforce. For example, the response schema describes the severity as "'Low', 'Medium', or 'High'" (services/geminiService.ts:33), and types.ts:31 declares an incident's severity to be one of those three. The model follows what the code does:

- A suggested severity that is not Low, Medium or High is kept and re-cased ("urgent" becomes "Urgent"), not replaced by "Medium". Such a value reaches the inserted record (`IncidentForm.UrgentIsInsertedAsIs`).
- The severity column of stored incidents is therefore a string. The list copies it unchecked. The dashboard counts such a row in its total but not in its `critical` counter, which counts only "High" (components/Dashboard.tsx:35-37). The dashboard keeps no Low or Medium counter: the per-severity counts and their sum are stated about the model's `Dashboard.CountSeverity`, which shows that such a row falls under none of the three labels (`ReportFlow.UrgentReportEscapesSeverityCounts`).
- Only Admin (Resolved) and Guidance (Under Counseling) are offered a status change. There is no Teacher transition and no "Action Taken" transition.
- An empty fetch result also falls back to the sample incidents.
- The user directory screen is dispatched without a role check. Only the navigation, which offers "users" to Admin alone, keeps other roles away from it (`App.UsersScreenOnlyForAdmin`).

## Model

| member | source | states |
|---|---|---|
| Types.TypeIndex | types.ts:9-18 | every category has a position among the eight declared ones, and Other is exactly the last |
| Types.IncidentTypesOrdered | types.ts:9-18 | there are exactly eight categories, pairwise distinct, every category is listed, and Other comes last |
| Types.TypeLabelInjective | types.ts:9-18 | two categories have the same label exactly when they are the same category |
| Types.TypeLabel | types.ts:9-18 | the string value of each category; shown pairwise distinct by `Types.TypeLabelInjective` |
| Types.SeverityLabel | types.ts:31 | the string value of each severity; shown to give exactly the three labels by `Types.EnumerationsClosed` |
| Types.IsSeverityLabel | types.ts:31 | a string is a severity label exactly when it is "Low", "Medium" or "High"; characterised by `Types.EnumerationsClosed` |
| Types.EnumerationsClosed | types.ts:2-31 | four roles and seven statuses (Seen and Forwarded among them), each listed; the severity labels are exactly Low, Medium, High |
| GeminiService.NormalizeCase | services/geminiService.ts:49-50 | keeps the length, upper-cases the lower-cased first character, lower-cases the rest, and agrees with the input up to case |
| GeminiService.NormalizeCaseIgnoresCase | services/geminiService.ts:49-50 | inputs equal up to case normalise to the same value |
| GeminiService.NormalizeCaseIdempotent | services/geminiService.ts:49-50 | normalising a normalised value changes nothing |
| GeminiService.NormalizeCaseExamples | services/geminiService.ts:49-50 | "low", "LOW" and "Low" all become "Low"; "HIGH" becomes "High"; "medium" becomes "Medium" |
| GeminiService.NormalizesTo | services/geminiService.ts:49-50 | an input whose lower-case form is known normalises to that form with its first letter upper-cased |
| GeminiService.LowSpelling | services/geminiService.ts:49-50 | every spelling of "low" up to case becomes "Low" |
| GeminiService.MediumSpelling | services/geminiService.ts:49-50 | every spelling of "medium" up to case becomes "Medium" |
| GeminiService.HighSpelling | services/geminiService.ts:49-50 | every spelling of "high" up to case becomes "High" |
| GeminiService.LabelsLowered | services/geminiService.ts:49 | the lower-cased severity labels are "low", "medium", "high" |
| GeminiService.NormalizedIsLabelIff | services/geminiService.ts:48-51 | normalisation yields a severity label exactly when the input spells one up to case |
| GeminiService.LabelIsFixpoint | services/geminiService.ts:49-50 | an input spelling a label up to case normalises to a label |
| GeminiService.UnrecognisedSeverityKept | services/geminiService.ts:48-51 | "urgent" becomes "Urgent", which is not a severity label: unknown values are kept |
| GeminiService.NormalizeSeverity | services/geminiService.ts:48-51 | absent stays absent and empty stays empty; any other value keeps its length and its letters up to case, and comes out normalised |
| GeminiService.AnalyzeIncident | services/geminiService.ts:5-57 | null without a key and null when the call or parse throws; otherwise the reply with its fields kept, an absent or empty severity untouched and any other severity re-cased |
| GeminiService.HasKey | services/geminiService.ts:6-7 | the key test: a present, non-empty key; characterised by `GeminiService.AnalyzeIncident` and `GeminiService.NoKeyNeverCalls` |
| GeminiService.NoKeyNeverCalls | services/geminiService.ts:5-16 | without a key the result is null whatever the model would have answered |
| GeminiService.ReturnedSeverityNormalized | services/geminiService.ts:48-53 | a returned severity is a fixpoint of the normalisation |
| Layout.VisibleAmong | components/Layout.tsx:53-54 | the role filter over a table; characterised by `Layout.VisibleAmongSpec` |
| Layout.Keep | components/Layout.tsx:54 | one step of the role filter: the entry when its role list holds the role, nothing otherwise; characterised by `Layout.VisibleAmongSpec` |
| Layout.VisibleNav | components/Layout.tsx:28-33 | the filtered navigation table; spelled out per role by `Layout.NavTable` |
| Layout.NavIds | components/Layout.tsx:53-58 | the ids of the offered items; spelled out per role by `Layout.NavByRole` |
| Layout.VisibleAmongSpec | components/Layout.tsx:53-54 | an item is shown exactly when it is in the table and its role list holds the role, and the shown items keep table order |
| Layout.Ids | components/Layout.tsx:57-58 | the button ids are the items' ids, in order |
| Layout.VisibleAmongFour | components/Layout.tsx:53-54 | over a four-item table the filter keeps each item for which the role qualifies, in order |
| Layout.NavByRole | components/Layout.tsx:28-33 | Anonymous sees only new-report; Teacher and Guidance see dashboard, reports, new-report; Admin sees all four |
| Layout.NavTable | components/Layout.tsx:28-33 | the filtered table for each role, and the table's ids in order |
| Layout.EveryRoleSeesNewReport | components/Layout.tsx:31 | every role is offered the report form |
| Layout.StaffSeeDashboardAndReports | components/Layout.tsx:29-30 | every staff role is offered the dashboard and the reports list |
| Layout.UsersAdminOnly | components/Layout.tsx:32 | the user directory is offered exactly to Admin |
| Layout.UsersNeedAdmin | components/Layout.tsx:32 | a role offered the user directory is Admin |
| Layout.AdminSeesUsers | components/Layout.tsx:32 | Admin is offered the user directory, as the fourth button |
| Layout.OnlyListedRolesSee | components/Layout.tsx:28-33 | in any table, an id whose every entry lists the same roles is shown only to those roles |
| Layout.FilterFour | components/Layout.tsx:28-33 | over any four-entry table shaped like the navigation table, Anonymous keeps the third entry, staff keep the first three and Admin keeps all |
| Layout.FirstDash | components/Layout.tsx:94 | the position of the first '-', or the length when there is none |
| Layout.HeaderTitle | components/Layout.tsx:94 | same length; only the first '-' becomes a space; a title without '-' is unchanged |
| Layout.TitleAt | components/Layout.tsx:94 | with the first '-' at position k, the title is the view with exactly that character made a space |
| Layout.HeaderTitleExamples | components/Layout.tsx:94 | "new-report" is titled "new report" and "dashboard" stays "dashboard" |
| Layout.NoDashTitle | components/Layout.tsx:94 | "dashboard" is its own title |
| Layout.NewReportTitle | components/Layout.tsx:94 | "new-report" is titled "new report" |
| IncidentList.FromRow | components/IncidentList.tsx:33-43 | one row's translation; characterised by `IncidentList.LoadedTranslatesRows` |
| IncidentList.FromRows | components/IncidentList.tsx:33-43 | each store row is translated, in store order |
| IncidentList.Loaded | components/IncidentList.tsx:22-52 | the list is never empty: an error or zero rows gives the sample incidents, otherwise the translated rows in store order, without notes |
| IncidentList.LoadedTranslatesRows | components/IncidentList.tsx:33-45 | every column the list reads is carried over under its camelCase name and the notes are dropped |
| IncidentList.MatchesSearch | components/IncidentList.tsx:73-74 | the search test; shown case-insensitive by `IncidentList.SearchIgnoresCase` |
| IncidentList.MatchesType | components/IncidentList.tsx:75 | the category test: every incident under "All", otherwise only the chosen category; characterised by `IncidentList.FilteredSpec` |
| IncidentList.Shown | components/IncidentList.tsx:72-81 | the filter callback; characterised by `IncidentList.FilteredSpec` and `IncidentList.TeacherSeesOwnSection` |
| IncidentList.Filtered | components/IncidentList.tsx:72-81 | no longer than the input, and every incident kept passes the filter |
| IncidentList.FilteredSpec | components/IncidentList.tsx:72-81 | an incident is shown exactly when it is listed and passes search, category and (for Teacher) section; the result keeps list order |
| IncidentList.UnfilteredShowsAll | components/IncidentList.tsx:73-80 | for a non-Teacher, an empty search with All types shows every incident |
| IncidentList.TeacherSeesOwnSection | components/IncidentList.tsx:77-78 | every incident a Teacher is shown has a section containing "10 - A" |
| IncidentList.SearchIgnoresCase | components/IncidentList.tsx:73-74 | searches equal up to case show the same list |
| IncidentList.WithStatus | components/IncidentList.tsx:63 | records with the id get the new status, all others are unchanged, the length is kept |
| IncidentList.WithStatusIdempotent | components/IncidentList.tsx:63 | setting the same status twice is setting it once |
| IncidentList.WithStatusLastWins | components/IncidentList.tsx:63 | the later of two updates to one id wins |
| IncidentList.WithStatusAbsent | components/IncidentList.tsx:63 | an id not in the list changes nothing |
| IncidentList.WithStatusOnlyStatus | components/IncidentList.tsx:63 | every field but the status of every record is kept |
| IncidentList.StatusActions | components/IncidentList.tsx:197-202 | at most one action; Resolved only for Admin and Under Counseling only for Guidance |
| IncidentList.StatusActionsByRole | components/IncidentList.tsx:197-202 | only Admin may resolve, only Guidance may move to counseling, and Teacher and Anonymous get no action |
| IncidentList.StatusColor | components/IncidentList.tsx:83-92 | the default colour exactly for Seen and Forwarded |
| IncidentList.StatusColorDefault | components/IncidentList.tsx:83-92 | Seen and Forwarded fall to the default colour, and every other status has a colour of its own |
| IncidentList.IncidentList.constructor | components/IncidentList.tsx:12-16 | empty search, All types, no incidents, loading, nothing open |
| IncidentList.IncidentList.FetchIncidents | components/IncidentList.tsx:22-52 | the list becomes the loaded incidents and loading ends; nothing else changes |
| IncidentList.SelectedAfter | components/IncidentList.tsx:64-66 | an open record stays open and only its status may change; it takes the new status exactly when its id is the updated one, and otherwise stays as it was |
| IncidentList.SelectedAfterMatchesList | components/IncidentList.tsx:63-66 | an open record that is a row of the list becomes that row of the updated list, so the detail view and the list agree |
| IncidentList.IncidentList.Visible | components/IncidentList.tsx:72-81 | the filtered list of the component's state; characterised by `IncidentList.FilteredSpec` |
| IncidentList.IncidentList.UpdateStatus | components/IncidentList.tsx:54-70 | on success the matching records and an open matching record take the status; on failure nothing changes |
| IncidentList.IncidentList.SetSearch | components/IncidentList.tsx:106 | only the search text changes |
| IncidentList.IncidentList.SetFilterType | components/IncidentList.tsx:116-121 | only the category filter changes |
| IncidentList.IncidentList.OpenDetail | components/IncidentList.tsx:146 | the clicked shown incident becomes the open one |
| IncidentList.IncidentList.CloseDetail | components/IncidentList.tsx:185 | the detail view closes and nothing else changes |
| IncidentList.IncidentList.ChooseStatusAction | components/IncidentList.tsx:197-202 | a role's own status button updates the open incident, or changes nothing on failure |
| IncidentForm.InitialForm | components/IncidentForm.tsx:18-24 | category Other, empty name, section and description, today's date |
| IncidentForm.NewRecord | components/IncidentForm.tsx:48-57 | status New, reporter = role, form fields copied, severity = the suggested one if present and non-empty, else "Medium" |
| IncidentForm.HasSeverity | components/IncidentForm.tsx:56 | the truthiness test of `severity || 'Medium'`: a present, non-empty severity; characterised by `IncidentForm.NewRecord` |
| IncidentForm.InsertedSeverityIsLabelIff | components/IncidentForm.tsx:56 | the inserted severity is Low, Medium or High exactly when no severity was suggested or the suggested one spells a label up to case |
| IncidentForm.UrgentIsInsertedAsIs | components/IncidentForm.tsx:56 | a suggested "urgent" is inserted as "Urgent" |
| IncidentForm.FirstNamed | components/IncidentForm.tsx:71-72 | the first category whose lower-cased name occurs in the suggestion, with none before it, or none at all |
| IncidentForm.Names | components/IncidentForm.tsx:72 | the `find` callback: the lower-cased suggestion includes the lower-cased category label; characterised by `IncidentForm.FirstNamed` and `IncidentForm.MatchType` |
| IncidentForm.MatchType | components/IncidentForm.tsx:71-73 | the first category in declaration order named by the suggestion regardless of case, and Other when none is |
| IncidentForm.MatchTypeIgnoresCase | components/IncidentForm.tsx:72 | suggestions equal up to case pick the same category |
| IncidentForm.FirstMatchWins | components/IncidentForm.tsx:71-73 | "Digital Misuse / Cyberbullying" names Digital Misuse yet picks Bullying, declared first |
| IncidentForm.BothNamed | components/IncidentForm.tsx:71-73 | a suggestion naming Digital Misuse and Bullying picks Bullying |
| IncidentForm.NamesBullying | components/IncidentForm.tsx:72 | a suggestion ending in "bullying" names Bullying |
| IncidentForm.NamesDigital | components/IncidentForm.tsx:72 | a suggestion starting with "Digital Misuse" names Digital Misuse |
| IncidentForm.IncidentForm.constructor | components/IncidentForm.tsx:16-24 | the initial form and no pending suggestion |
| IncidentForm.IncidentForm.SetStudentName | components/IncidentForm.tsx:105 | only the student name changes |
| IncidentForm.IncidentForm.SetGradeSection | components/IncidentForm.tsx:116 | only the section changes |
| IncidentForm.IncidentForm.SetDescription | components/IncidentForm.tsx:174 | only the description changes |
| IncidentForm.IncidentForm.SelectType | components/IncidentForm.tsx:132 | only the category changes |
| IncidentForm.IncidentForm.HandleAiAnalyze | components/IncidentForm.tsx:26-39 | analysis runs exactly when the description has at least 10 characters; a null result keeps the pending suggestion; the form is unchanged |
| IncidentForm.IncidentForm.HandleSubmit | components/IncidentForm.tsx:41-67 | the inserted record is the new record and the success callback runs exactly when the insert succeeds |
| IncidentForm.IncidentForm.ApplyAiSuggestion | components/IncidentForm.tsx:69-77 | with a suggestion only the category changes, to the matched one, and the suggestion is cleared; with none nothing changes |
| IncidentForm.AcceptThenSubmit | components/IncidentForm.tsx:56-75 | after applying a suggestion the next submission inserts severity "Medium" and the matched category |
| Dashboard.CountStatus | components/Dashboard.tsx:36-38 | at most the number of rows, and zero exactly when no row has the status |
| Dashboard.CountSeverity | components/Dashboard.tsx:37 | at most the number of rows, and zero exactly when no row's severity column equals the label |
| Dashboard.DistinctStatusesBounded | components/Dashboard.tsx:36-38 | two distinct statuses together count at most all rows |
| Dashboard.StatusCountsPartition | components/Dashboard.tsx:35-38 | the seven status counts add up to the total; the dashboard itself shows only the Resolved and Under Counseling counts, so the other five and the sum exist only in the model |
| Dashboard.SeverityCountsPartition | components/Dashboard.tsx:35-37 | the three severity counts add up to at most the total, and to the total exactly when every row's severity is a label; the dashboard itself shows only the High count (`critical`), so the Low and Medium counts and the sum exist only in the model |
| Dashboard.UnlabelledRowUncounted | components/Dashboard.tsx:35-37 | a row whose severity is not a label leaves every severity count unchanged |
| Dashboard.CountSeverityAppend | components/Dashboard.tsx:37 | appending a row raises a severity count by one exactly when the row carries that label |
| ReportFlow.UrgentReportEscapesSeverityCounts | components/IncidentForm.tsx:56 | a report filed after an "urgent" suggestion raises the total but no severity count, the dashboard's High (`critical`) count included, so the model's three severity counts fall short of the total |
| Dashboard.Tally | components/Dashboard.tsx:34-39 | total = rows, resolved, critical and counseling are the matching counts, each at most the total, and resolved + counseling at most the total |
| Dashboard.StatsAfter | components/Dashboard.tsx:28-47 | an error gives 42/24/6/8, a null result keeps the stats, rows give the tally |
| Dashboard.FallbackConsistent | components/Dashboard.tsx:43 | the fallback figures fit within their total |
| Dashboard.ShowsCharts | components/Dashboard.tsx:111 | the chart predicate; characterised by `Dashboard.ChartsByRole` |
| Dashboard.ChartsByRole | components/Dashboard.tsx:111 | charts are shown to Admin and Guidance and not to Teacher or Anonymous |
| Dashboard.Dashboard.constructor | components/Dashboard.tsx:16-22 | all counters zero and loading |
| Dashboard.Dashboard.FetchStats | components/Dashboard.tsx:28-47 | the stats become those after the fetch, and loading ends |
| UserManagement.Toggled | components/UserManagement.tsx:9-11 | users with the id have `active` negated, all others are unchanged, the length is kept |
| UserManagement.ToggleTwice | components/UserManagement.tsx:10 | toggling one id twice restores the directory |
| UserManagement.ToggleAbsent | components/UserManagement.tsx:10 | toggling an absent id changes nothing |
| UserManagement.ToggleKeepsIdentity | components/UserManagement.tsx:10 | id, name and role of every user are kept, in order |
| UserManagement.ToggleCommutes | components/UserManagement.tsx:10 | toggles of two ids may be done in either order |
| UserManagement.InitialDirectory | constants.tsx:104-108 | three users, Admin, Teacher and Guidance, all active |
| UserManagement.UserManagement.constructor | components/UserManagement.tsx:7 | the directory starts as the sample users |
| UserManagement.UserManagement.ToggleStatus | components/UserManagement.tsx:9-11 | the directory becomes the toggled one |
| App.Dispatch | App.tsx:32-56 | reports, users and new-report pick their screens and every other view id the dashboard; the login screen is never dispatched |
| App.Rendered | App.tsx:28-30 | the login screen exactly when nobody is signed in, otherwise the dispatched screen |
| App.StartView | App.tsx:15-22 | the start view is offered to the role: the report form for Anonymous, the dashboard for staff |
| App.ViewAfterSubmit | App.tsx:44-51 | Anonymous stays on the current view; staff move to the reports list, which they are offered |
| App.UsersScreenOnlyForAdmin | App.tsx:38-39 | a signed-in user on an offered view reaches the user directory only as Admin |
| App.AnonymousOnlyReports | App.tsx:40-53 | an anonymous reporter on an offered view sees the report form |
| App.App.constructor | App.tsx:12-13 | nobody signed in, view dashboard |
| App.App.Render | App.tsx:28-56 | the login screen exactly when nobody is signed in, the dispatched screen otherwise, and the user directory only for Admin |
| App.App.HandleLogin | App.tsx:15-22 | the role is set and the view is the role's start view |
| App.App.HandleLogout | App.tsx:24-26 | the role is cleared and the view is kept |
| App.App.Navigate | components/Layout.tsx:58 | clicking a shown navigation item makes its id the view |
| App.App.OnSubmitSuccess | App.tsx:44-51 | the view after a submission, with the role kept |

## Left out

- The hosted store client and every query. Each store call is a parameter that carries its outcome. Store rows type their category, status and role columns: every value the application writes to them is a declared one. Their severity column is a string.
- The AI request itself: the prompt, the model name, the response schema and `JSON.parse`. They are represented by `ModelCall`. A reply field that is present but not a string is not modelled.
- GeminiService.NormalizeCase: `toLowerCase`/`toUpperCase` are modelled on ASCII letters only. Unicode case mapping, which can change a string's length, is not modelled, and string length counts characters, not UTF-16 units.
- IncidentList.MatchesSearch: the same ASCII-only lower-casing, so a search for "PEÑAFLOR" is not shown to match "Peñaflor".
- IncidentList.SearchIgnoresCase: holds for case that differs in ASCII letters only, for the same reason.
- IncidentForm.MatchType: the suggested type is lower-cased on ASCII letters only.
- IncidentForm.IncidentForm.HandleAiAnalyze: the 10-character guard counts characters, not UTF-16 units, so a description containing characters outside the Basic Multilingual Plane may pass the guard in the browser while being shorter here.
- The liveness ping and its timer, the login delay, and the whole login screen. These are timers and presentation, and the role set is in `Types`.
- JSX, CSS classes, icons, chart rendering and chart data, `alert` calls, and the mounting code. These are presentation.
- `new Date()` and locale date formatting. These read the clock, so the initial form date is a parameter.
- Asynchrony. Each handler runs to completion in one step. The stale `selectedIncident` closure of concurrent updates, and the `aiAnalyzing` and form `loading` flags, are not modelled.
- Browser-enforced `required` fields. They have no code.
- Note saving, note attribution, the "Action Taken" transition, and creating or deleting users. The code implements none of them.
- Constants.MockIncidents and Constants.MockUsers are transcribed as data. Only the user directory's initial content has a lemma about it.
