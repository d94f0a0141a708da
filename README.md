# Complexo Erasmus school portal — verified model of its decision rules

The application is a single-page school portal: a public marketing site, a
login screen, and role-specific dashboards for administrators, directors,
teachers, parents and staff, all running on in-memory mock data. Almost all of
it is markup. This project models the few rules that decide something, as
Dafny, and proves what they promise:

- **Login** (`login.dfy`): the case-insensitive search of the user list by
  email, the "at least four characters" password rule, the two fixed error
  messages, and the login form's submit handler as a class `LoginForm`.
- **Application shell** (`app.dfy`): turning the URL fragment into a view
  token, the role-to-route table applied on login, logout, and the choice of
  screen (`SelectView`) from the logged-in user and the token. The shell's
  state is the class `AppState` (`currentUser`, `currentHash`, `siteContent`
  and the browser fragment `locationHash`).
- **Site-page editor** (`admin_dashboard.dfy`): saving a page (replace by id,
  or append under a new `page-<timestamp>` id), deleting pages by id, and
  publishing the site content, as the class `PageEditor` over `editContent`
  and `editingPage`.
- **Teacher portal** (`teacher_portal.dfy`): the teacher's classes (with the
  hard-coded fallback account), the selected class, its students, the
  attendance toggles with their "missing means present" badge rule, and the
  state around a request to the pedagogical assistant, as the class
  `PortalState`.
- **Parent portal** (`parent_portal.dfy`): finding the parent's linked
  student, the report card (partial average of the first two quarters, a
  dash for a third-quarter grade of 0, a badge that always reads
  "Aprovado"), and the message box as the class `ChatState`.
- `common.dfy` holds the list operations the source uses through JavaScript's
  `find` and `filter` and the decimal rendering of timestamps;
  `types.dfy` the records; `mock_data.dfy` the initial data, over which the
  concrete lemmas and `scenarios.dfy` run whole flows.

Browser effects are explicit: `alert` is dropped, `confirm` is a boolean
argument, `Date.now()` is a natural-number argument, the `onLogin` and
`onUpdateSite` callbacks are returned values, and the `hashchange` event is a
method call carrying the new fragment.

The attendance rule has a quirk that the model keeps and proves
(`TeacherPortal.ToggleTimesUntouched`, `TeacherPortal.FirstToggleStillPresent`):
an untouched student shows "PRESENTE", the first click stores `true` and the
badge still shows "PRESENTE", and only the second click shows "AUSENTE".

The parent portal's partial average always divides the sum of the first two
quarters by two, even when a grade is 0, and the badge always reads
"Aprovado"; the model keeps both (`ParentPortal.AverageIgnoresQ3AndExam`).

## Model

| member | source | states |
|---|---|---|
| Common.FindFirst | pages/Login.tsx:21 | the position returned is the first whose element satisfies the test; none is returned exactly when no element does |
| Common.Find | pages/ParentPortal.tsx:14 | a found element is in the list and satisfies the test, and no element before it does: it is the first; nothing is found exactly when no element does |
| Common.Filter | pages/TeacherPortal.tsx:15 | every kept element is in the list and satisfies the test, and the result is no longer than the list |
| Common.FilterKeeps | pages/TeacherPortal.tsx:38 | every element that satisfies the test survives filtering |
| Common.FilterAppend | pages/AdminDashboard.tsx:43 | filtering a concatenation is the concatenation of the filtered parts, so the relative order of kept elements is preserved |
| Common.FilterAllKept | pages/AdminDashboard.tsx:43 | a list all of whose elements pass is returned unchanged |
| Common.FilterMembership | pages/TeacherPortal.tsx:37-39 | an element is in the filtered list exactly when it is in the list and passes the test |
| Common.FilterDropMiddle | pages/AdminDashboard.tsx:43 | filtering a list whose middle part fails the test and whose outer parts pass leaves exactly the outer parts, in order |
| Common.FilterNoneKept | pages/TeacherPortal.tsx:17 | a list none of whose elements passes filters to the empty list |
| Common.DecimalString | pages/AdminDashboard.tsx:31 | a timestamp renders as a non-empty string of decimal digits, of one digit exactly below 10, starting with '0' only for 0 (no leading zero) |
| Common.DecimalRoundTrip | pages/AdminDashboard.tsx:31 | reading the rendered digits back gives the timestamp |
| Common.DecimalStringInjective | pages/AdminDashboard.tsx:31 | different timestamps render differently |
| Login.Lower | pages/Login.tsx:21 | lower-casing keeps the length, turns each upper-case ASCII letter into its lower-case letter, keeps every other character, and leaves no upper-case ASCII letter |
| Login.Utf16Length | pages/Login.tsx:26 | `password.length` counts UTF-16 code units: one character counts 1 inside the Basic Multilingual Plane and 2 outside it; in total at least one and at most two per character, exactly one per character when none lies outside the plane |
| Login.ErrorMessage | pages/Login.tsx:29-32 | both error texts are non-empty, so an error is always visible |
| Login.FindUser | pages/Login.tsx:21 | the position found is the first user whose lower-cased email equals the lower-cased input; none exactly when no user matches |
| Login.Authenticate | pages/Login.tsx:21-33 | success exactly when some email matches and the password is at least 4 UTF-16 code units long, with the first matching user; "user not found" exactly when no email matches, whatever the password; "password too short" exactly when an email matches and the password is shorter than 4 code units |
| Login.FirstMatchUnique | pages/Login.tsx:21 | the first match is unique |
| Login.AuthenticateDependsOnlyOn | pages/Login.tsx:21-26 | emails equal after lower-casing and passwords of equal length in code units give the same outcome: only the password's length is inspected |
| Login.LoginForm.constructor | pages/Login.tsx:12-14 | the form starts with empty email, password and error |
| Login.LoginForm.SetEmail | pages/Login.tsx:50 | typing changes only the email |
| Login.LoginForm.SetPassword | pages/Login.tsx:57 | typing changes only the password |
| Login.LoginForm.HandleSubmit | pages/Login.tsx:16-34 | the previous error is cleared, so the outcome is the login decision on the current inputs; on success the matched user is handed over and the error stays empty, otherwise nobody is handed over and the matching message is shown; exactly one of the two happens |
| Login.ParentLogsIn | constants.tsx:48 | "PAI@EMAIL.COM" with "1234" logs in the mock parent |
| Login.ShortPasswordRefused | constants.tsx:48 | the mock parent's email with a 3-character password is refused as too short |
| Login.Utf16LengthAppend | pages/Login.tsx:26 | the code-unit length of a concatenation is the sum of its parts' lengths, so with the one-character case the length of every string is fixed |
| Login.AstralPasswordAccepted | pages/Login.tsx:26 | a password of two characters outside the Basic Multilingual Plane is four code units long and logs the mock parent in |
| App.StripHashPrefix | App.tsx:17 | a fragment starting with "#/" is "#/" followed by the result, one starting with "#" but not "#/" is "#" followed by the result, and any other fragment is returned as it is |
| App.NormalizeHash | App.tsx:17 | the token is never empty; "", "#" and "#/" give "home"; a fragment not starting with "#" is kept as it is |
| App.NormalizeHashRoundTrip | App.tsx:27 | prefixing "#/" to a non-empty token, or "#" to one not starting with "/", is undone by normalisation |
| App.NormalizeHashExamples | App.tsx:17 | "#/admin" and "#admin" give "admin", "" and "#" give "home", and only one "/" is stripped |
| App.RouteFor | App.tsx:46-54 | every route is non-empty, is not "login" and does not start with "/"; it is "home" exactly for the PUBLIC role |
| App.RouteForInjective | App.tsx:46-53 | different roles get different routes |
| App.SelectView | App.tsx:62-82 | logged out, the login screen shows exactly for token "login" and the public site otherwise; logged in, never the login screen, and the public site exactly for the PUBLIC role; ADMIN, DIRECTOR, TEACHER, PARENT and STAFF each get their own dashboard and only that one; the public site and the admin screen both receive the shell's site content; every dashboard receives the current user |
| App.RoleDecidesView | App.tsx:68-81 | logged in, the token has no influence: a teacher with token "admin" gets the teacher portal |
| App.DistinctScreens | App.tsx:68-81 | users of different roles get different screens |
| App.AppState.constructor | App.tsx:14-18 | the page loads with nobody logged in, the initial site content and the token of the initial fragment |
| App.AppState.Render | App.tsx:62-82 | logged out, the login screen exactly for token "login" and the public site with the shell's content otherwise; logged in, the role's screen whatever the token |
| App.AppState.HashChanged | App.tsx:25-29 | the token becomes the normalised new fragment; user and content are untouched |
| App.AppState.HandleLogin | App.tsx:44-55 | the user becomes exactly the given one and the fragment becomes "#" and the role's route, which normalises back to the route |
| App.AppState.HandleLogout | App.tsx:57-60 | nobody is logged in and the fragment is "#home"; the public site renders unless the stale token is "login" |
| App.AppState.UpdateSite | App.tsx:70 | the site content is replaced wholesale; nothing else changes |
| App.LoginLogoutScenario | App.tsx:44-82 | after login and the fragment change the token is the role's route and the role's screen shows; after logout and the fragment change the public site shows |
| AdminDashboard.NewPageId | pages/AdminDashboard.tsx:31 | a new page's id is "page-" followed by decimal digits, without a leading zero, whose value is the timestamp |
| AdminDashboard.NewPageIdInjective | pages/AdminDashboard.tsx:31 | pages created at different times get different ids |
| AdminDashboard.ReplacePage | pages/AdminDashboard.tsx:29 | length and positions are kept; a page with the edited id becomes the edited page and every other page is untouched |
| AdminDashboard.RemovePages | pages/AdminDashboard.tsx:43 | every remaining page was in the list and does not carry the deleted id |
| AdminDashboard.SavePages | pages/AdminDashboard.tsx:28-33 | with an id the pages are replaced by id; without one exactly one page is appended at the end with the edited fields and a new id, and the existing pages are unchanged and in order |
| AdminDashboard.ResaveUnchanged | pages/AdminDashboard.tsx:28-32 | with unique ids, saving a page that is already in the list, unchanged and with an id, leaves the list equal |
| AdminDashboard.ReplacePageIdempotent | pages/AdminDashboard.tsx:29 | saving the same page twice equals saving it once |
| AdminDashboard.RemovePagesMembership | pages/AdminDashboard.tsx:43 | a page survives a delete exactly when it was there and carries another id |
| AdminDashboard.RemoveAbsentId | pages/AdminDashboard.tsx:43 | deleting an id no page carries leaves the list equal |
| AdminDashboard.OthersKept | pages/AdminDashboard.tsx:43 | with unique ids, a stretch of the list not containing a page is untouched by deleting that page's id |
| AdminDashboard.RemoveExistingPage | pages/AdminDashboard.tsx:43 | with unique ids, deleting an existing page's id removes exactly that page and keeps the others in order |
| AdminDashboard.SavePreservesUniqueIds | pages/AdminDashboard.tsx:28-32 | saving keeps ids unique, provided the generated id of a new page is not already taken |
| AdminDashboard.PageEditor.constructor | pages/AdminDashboard.tsx:16-17 | the editor starts from the given site content with no page open |
| AdminDashboard.PageEditor.SetEditContent | pages/AdminDashboard.tsx:94-99 | the site form replaces the local copy and leaves the open page alone |
| AdminDashboard.PageEditor.SetEditingPage | pages/AdminDashboard.tsx:116-129 | opening, editing or closing the page dialog changes only the open page |
| AdminDashboard.PageEditor.HandleSaveSite | pages/AdminDashboard.tsx:19-22 | publishing hands over the local copy unchanged |
| AdminDashboard.PageEditor.HandleSavePage | pages/AdminDashboard.tsx:24-39 | with no page open nothing is published and the content is unchanged; otherwise only the page list changes, by the save rule, and the new content is both kept and published; the dialog is closed afterwards |
| AdminDashboard.PageEditor.HandleDeletePage | pages/AdminDashboard.tsx:41-47 | unconfirmed, nothing changes; confirmed, every page with the id goes, only the page list changes, and the new content is both kept and published |
| TeacherPortal.TeacherClasses | pages/TeacherPortal.tsx:14-21 | every class shown is one of the given classes |
| TeacherPortal.TeacherClassesMembership | pages/TeacherPortal.tsx:14-21 | with own classes, exactly those whose teacher is the user; with none and the exact fallback email, exactly those of "teacher-1" or "ricardo"; with none and another email, nothing |
| TeacherPortal.InitialClassId | pages/TeacherPortal.tsx:23 | the initial class is the first of the teacher's classes, or "" when there is none |
| TeacherPortal.ClassStudents | pages/TeacherPortal.tsx:37-39 | every student shown is one of the given students and belongs to the class |
| TeacherPortal.ClassStudentsComplete | pages/TeacherPortal.tsx:37-39 | no student of the class is left out |
| TeacherPortal.ClassHeading | pages/TeacherPortal.tsx:100 | the heading is never empty; it is the name of the first of the teacher's classes with the selected id when that name is non-empty, and "Turma" otherwise or when no class has that id |
| TeacherPortal.IsPresent | pages/TeacherPortal.tsx:116-118 | a student without an entry shows as present; one with an entry shows as present exactly when it is true |
| TeacherPortal.Toggle | pages/TeacherPortal.tsx:42 | the clicked entry is negated, a missing one becoming true; the keys gain only the clicked id and every other entry is unchanged |
| TeacherPortal.ToggleOthersUnchanged | pages/TeacherPortal.tsx:116-118 | a click changes no other student's badge |
| TeacherPortal.ToggleFlipsRecorded | pages/TeacherPortal.tsx:116-118 | once a student has an entry, a click flips the badge |
| TeacherPortal.ToggleTimesUntouched | pages/TeacherPortal.tsx:116-118 | for an untouched student the badge reads present after zero or an odd number of clicks and absent after an even, non-zero number |
| TeacherPortal.FirstToggleStillPresent | pages/TeacherPortal.tsx:116-118 | the first click still shows "PRESENTE", only the second shows "AUSENTE" |
| TeacherPortal.PortalState.constructor | pages/TeacherPortal.tsx:14-35 | the portal opens on the teacher's classes and the first one, with empty attendance and no consultation |
| TeacherPortal.PortalState.CurrentClassStudents | pages/TeacherPortal.tsx:37-39 | a student is listed exactly when it is one of the portal's students and belongs to the selected class |
| TeacherPortal.PortalState.ShowsPresent | pages/TeacherPortal.tsx:116-118 | the badge reads "PRESENTE" exactly when the student has no entry or a true one |
| TeacherPortal.PortalState.SelectClass | pages/TeacherPortal.tsx:68 | choosing a class changes only the selected class |
| TeacherPortal.PortalState.ToggleAttendance | pages/TeacherPortal.tsx:41-43 | the attendance becomes the toggled map and no other badge changes |
| TeacherPortal.PortalState.BeginAiConsult | pages/TeacherPortal.tsx:45-48 | the student is selected, loading is on and the old reply is cleared |
| TeacherPortal.PortalState.FinishAiConsult | pages/TeacherPortal.tsx:49-51 | the reply is stored and loading is off; the selected student stays |
| TeacherPortal.PortalState.NewConsult | pages/TeacherPortal.tsx:193 | the selected student and the reply are both cleared |
| TeacherPortal.MockTeacherSeesAlice | constants.tsx:65-67 | "teacher-1" gets class "c1", which is selected first and holds student "s1" |
| TeacherPortal.FallbackByExactEmail | pages/TeacherPortal.tsx:17-18 | an account with the fallback email and another id still gets "c1"; the same email in other letter case gets nothing |
| ParentPortal.FindStudent | pages/ParentPortal.tsx:14 | the student found is the first whose id equals the user's linked id; one is found whenever such a student exists; an unlinked account finds nobody |
| ParentPortal.Q3Display | pages/ParentPortal.tsx:68 | the third-quarter card shows a dash exactly when the grade is 0 and the grade otherwise |
| ParentPortal.PartialAverage | pages/ParentPortal.tsx:84 | the average lies between the first two quarters' grades and twice it is their sum |
| ParentPortal.Report | pages/ParentPortal.tsx:66-86 | the card shows the first two quarters, the absences, the third-quarter display, the partial average and the "Aprovado" badge |
| ParentPortal.AverageIgnoresQ3AndExam | pages/ParentPortal.tsx:84-86 | records with the same first two quarters get the same average and the same badge |
| ParentPortal.PortalScreen | pages/ParentPortal.tsx:20-28 | only the restricted-access screen shows exactly when no linked student is found; otherwise the card of the student found, the first with the linked id |
| ParentPortal.ChatState.constructor | pages/ParentPortal.tsx:15-18 | the box starts with the teacher's greeting and an empty input |
| ParentPortal.ChatState.SetChatInput | pages/ParentPortal.tsx:111 | typing changes only the input |
| ParentPortal.ChatState.Send | pages/ParentPortal.tsx:112-116 | with empty input nothing changes; otherwise exactly one message from "Você" with the input's text is appended after the unchanged earlier messages and the input is cleared |
| ParentPortal.MockParentSeesAlice | constants.tsx:51-62 | the mock parent's student is "s1", whose average is 16.5 and whose third quarter shows a dash |
| ParentPortal.UnlinkedParentRestricted | pages/ParentPortal.tsx:20-28 | on the mock students, an account with no linked student, or one linked to any id other than "s1", gets the restricted-access screen |
| Scenarios.ParentLoginScenario | App.tsx:44-76 | the mock parent logging in through the form with an upper-cased email reaches the parent screen; given the mock student list, the parent portal would show Alice's report card |
| Scenarios.AdminDeleteScenario | pages/AdminDashboard.tsx:41-47 | a confirmed deletion of "p2", once published, is what the public site shows after logout, with every other part of the content unchanged |
| Scenarios.AdminNewPageScenario | pages/AdminDashboard.tsx:24-39 | a saved blank page with a title is appended under the new id after the unchanged existing pages, and ids stay unique |

## Left out

- Markup, styling, tabs and the shared presentational components: they decide nothing.
- The public site page (scroll listeners and `window.scrollTo`): its only state is which page is displayed.
- The pedagogical assistant service and its remote model: a reply is an arbitrary string given to `FinishAiConsult`. A reply that arrives after the teacher has started another consultation overwrites the newer one; the model does not capture that asynchronous interleaving. The assistant client is built outside the request's error handling, so if building it fails the reply never arrives and the spinner stays on with "Nova Consulta" hidden; the model allows that trace, since `FinishAiConsult` is then never called, but proves nothing about it.
- The persistence client and the build configuration: no rule uses them.
- The director, staff and administrator finance and inventory screens: their figures are fixed strings and the inventory buttons have no handlers, so there is no balance or stock rule to model.
- The banner about missing configuration keys (App.tsx:20-42): it reads the environment.
- Unicode lower-casing: `Login.Lower` lower-cases ASCII letters only.
- Floating-point numbers: grades and the average are reals, and the one-decimal formatting of the average is dropped.
- Millisecond timestamps are natural-number arguments; nothing guarantees two saves get different timestamps, so `AdminDashboard.SavePreservesUniqueIds` takes freshness as a precondition.
- When the browser fires `hashchange` (only when the fragment actually changes) is not modelled: `App.AppState.HashChanged` is called with the new fragment.
- The application shell renders the parent portal without the student list it needs (App.tsx:76); the model passes the list explicitly to `ParentPortal.PortalScreen` and does not model that wiring.
- The teacher portal's grade, document and student-list state (pages/TeacherPortal.tsx:26-31) is never changed by any handler in the file, so `PortalState.students` is a constant and the others are left out.
- The optional user fields password, address, avatar and position are not modelled: no rule reads them.
- Scenarios.ParentLoginScenario: at this point the program itself fails: the shell renders the parent portal without a student list (App.tsx:76), so the search at pages/ParentPortal.tsx:14 runs on an undefined list and throws. The scenario passes the mock student list the component's props declare, so its report-card ensures is what the portal would show, not what the program shows.
- Inherited object keys: the attendance record is a plain object, so `prev[id]` also finds inherited properties and an id such as "toString" would store false on its first click (pages/TeacherPortal.tsx:42). The model's `map` treats such an id as missing; the portal's student ids never take such a name.
