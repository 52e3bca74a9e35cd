# Paths to Success: a Dafny model of the front end's logic

Paths to Success (مسارات النجاح) is a React front end for a student projects
and competitions platform. Students browse projects, register and upload
files. Admins publish projects, follow registrants, grade submissions and
write comments and private notes. The interface is Arabic first, with an
English translation.

The front end has no algorithmic centre. It is a layer of small,
self-contained rules, and this project models that layer and proves what
those rules promise:

- **In-memory stores.** The project and registration store
  (`useProjects`), the notification store (`useNotifications`) and the demo
  account registry (`AuthContext`). Each is a Dafny `class` whose `seq`/`map`
  fields are replaced by the store's operations. Each method is specified by
  a pure function of the old state, and the list properties are lemmas about
  those functions: only the target changes, length and order are kept,
  counters move by exactly one, and signup followed by login round-trips.
- **Decision rules and string helpers.**
  - the download hook's conversion table, extension, cleaned file name and
    MIME choice;
  - the route guard and route table;
  - the status toggle and the list filters;
  - the translation lookup, the initials, the chatbot's keyword classifier
    and the status labels.
- **Form and widget state machines.**
  - the project wizard;
  - the login, signup and file-submission forms;
  - the comment box, the admin-notes editor, the grade editor and the chat
    window.

JavaScript semantics are written out where they matter:

- `toLowerCase` and `toUpperCase` are modelled on ASCII letters.
- `trim` and `\s` use ECMAScript's whitespace set.
- `.length` counts UTF-16 code units.
- `||` falls back on every falsy value, so `maxScore || 100` turns 0 into 100.
- A spread of `Partial<T>` becomes a patch of `Option` fields.
- An index into a missing table, which throws, becomes `None`.

Ids, timestamps and timer callbacks become parameters and separate steps.

Two behaviours worth noting:

- The student home page filters the seed list directly, not the store.
- The login page picks its destination by email, not by role.

## Model

| member | source | states |
|---|---|---|
| ProjectStore.Store.constructor | src/hooks/useProjects.ts:14-22 | with nothing saved, projects start as the six seed projects and registrations start empty |
| ProjectStore.MergeNoChange | src/hooks/useProjects.ts:45-49 | merging the empty patch `{}` leaves a project unchanged |
| ProjectStore.NewProjectKeepsDraft | src/hooks/useProjects.ts:34-43 | a new project carries the caller's fields unchanged, the given id, status open and count 0 |
| ProjectStore.Store.AddProject | src/hooks/useProjects.ts:34-43 | appends exactly that one project at the end; earlier projects and registrations untouched |
| ProjectStore.UpdateWhereSpec | src/hooks/useProjects.ts:45-49 | same length; position i holds the merge when its id matches and the old project otherwise |
| ProjectStore.UpdateUnknownIdIsNoOp | src/hooks/useProjects.ts:45-49 | updating an id no project has changes nothing |
| ProjectStore.Store.UpdateProject | src/hooks/useProjects.ts:45-49 | the project list becomes the id-wise merge; registrations unchanged |
| ProjectStore.RemoveWhereMembers | src/hooks/useProjects.ts:51-53 | after deletion a project is present iff it was present and its id differs |
| ProjectStore.RemoveWhereAppend | src/hooks/useProjects.ts:51-53 | deletion distributes over concatenation, so the survivors keep their order |
| ProjectStore.Store.DeleteProject | src/hooks/useProjects.ts:51-53 | the project list loses every project with the id; registrations unchanged |
| ProjectStore.FirstIndex | src/hooks/useProjects.ts:55-57 | the index of the first project with the id, or the length when none has it |
| ProjectStore.FindIsFirstMatch | src/hooks/useProjects.ts:55-57 | lookup finds nothing iff no project has the id, and otherwise returns the first such project |
| ProjectStore.Store.RegisterForProject | src/hooks/useProjects.ts:59-81 | an unknown project gives "Project not found" and changes neither list; otherwise one registration is appended and that project's count is raised |
| ProjectStore.RegisterBumpsCount | src/hooks/useProjects.ts:63-79 | the registration is 'registered' with 0 files and the project's title; the first matching project's count goes up by exactly 1 and nothing else changes |
| ProjectStore.AttachWhereSpec | src/hooks/useProjects.ts:83-105 | the matching registration gains the file at the end, filesCount equals the new list's length and status is in-progress; the others are unchanged |
| ProjectStore.Store.AddFileToRegistration | src/hooks/useProjects.ts:83-105 | registrations become the attach result; projects unchanged |
| NotificationStore.NewNotification | src/hooks/useNotifications.ts:19-27 | the new entry has the given fields, is unread and is of type info unless another type is given |
| NotificationStore.NotificationStore.constructor | src/hooks/useNotifications.ts:8-13 | with nothing saved the list is the seed notifications |
| NotificationStore.NotificationStore.AddNotification | src/hooks/useNotifications.ts:19-30 | the new entry is put first and the rest follow unchanged |
| NotificationStore.PrependCounts | src/hooks/useNotifications.ts:28-46 | putting an unread entry first raises both length and unread count by exactly 1 |
| NotificationStore.MarkReadSpec | src/hooks/useNotifications.ts:32-36 | same length; only entries with the id get read = true, every other field and entry unchanged |
| NotificationStore.MarkReadCount | src/hooks/useNotifications.ts:32-36 | marking never raises the unread count, and lowers it when an unread entry has the id |
| NotificationStore.NotificationStore.MarkAsRead | src/hooks/useNotifications.ts:32-36 | the list becomes the id-wise mark-read of the old list |
| NotificationStore.MarkAllReadSpec | src/hooks/useNotifications.ts:38-40 | same length, every entry read with other fields kept, unread count 0 |
| NotificationStore.MarkAllReadIdempotent | src/hooks/useNotifications.ts:38-40 | marking all twice equals marking all once |
| NotificationStore.NotificationStore.MarkAllAsRead | src/hooks/useNotifications.ts:38-40 | the list becomes the all-read version of the old list |
| NotificationStore.RemoveNotificationMembers | src/hooks/useNotifications.ts:42-44 | an entry survives iff it was present and its id differs |
| NotificationStore.RemoveNotificationAppend | src/hooks/useNotifications.ts:42-44 | deletion distributes over concatenation, so the rest keep their order |
| NotificationStore.NotificationStore.DeleteNotification | src/hooks/useNotifications.ts:42-44 | the list loses the entries with the id |
| NotificationStore.CountUnread | src/hooks/useNotifications.ts:46 | the unread count never exceeds the length and is 0 iff every entry is read |
| Auth.Authenticate | src/contexts/AuthContext.tsx:69-88 | login succeeds iff the lower-cased email is a demo account with that exact password, or, failing that, a registered account with it; a failure carries the fixed error text |
| Auth.SignupError | src/contexts/AuthContext.tsx:91-102 | signup is refused iff the lower-cased email is a demo account or already registered |
| Auth.SignupErrorOrder | src/contexts/AuthContext.tsx:94-102 | the demo table is checked first, with its own message, then the registry with the other |
| Auth.RegisterSpec | src/contexts/AuthContext.tsx:104-119 | signup adds exactly one key, the lower-cased email, whose user is a student with that email; other entries are unchanged and the registry invariant is kept |
| Auth.SignupThenLogin | src/contexts/AuthContext.tsx:79-125 | after signup, login with the same email in any letter case and the same password returns the new user |
| Auth.UpdateKeepsRegistryValid | src/contexts/AuthContext.tsx:139-144 | replacing a registered user keeps the registry's keys valid |
| Auth.AuthContext.constructor | src/contexts/AuthContext.tsx:64-67 | the current user is the saved one, if any |
| Auth.AuthContext.Login | src/contexts/AuthContext.tsx:69-89 | on success the found user becomes current; on failure the error is returned and the current user is unchanged; the registry is never changed |
| Auth.AuthContext.Signup | src/contexts/AuthContext.tsx:91-126 | a refused email changes nothing; otherwise the registry gains the entry and the new user becomes current |
| Auth.AuthContext.Logout | src/contexts/AuthContext.tsx:128-131 | the current user becomes none |
| Auth.AuthContext.UpdateUser | src/contexts/AuthContext.tsx:133-147 | a no-op without a current user; otherwise the fields are merged into the user and into the registry entry under the previous email, if there is one |
| LoginPage.LoginDestination | src/pages/LoginPage.tsx:33-38 | the destination is /admin iff the lower-cased email is admin@demo.com, otherwise /student |
| LoginPage.DestinationMatchesRole | src/pages/LoginPage.tsx:33-38 | when every registered account is a student, the email-based destination agrees with the logged-in user's role |
| LoginPage.LoginForm.HandleSubmit | src/pages/LoginPage.tsx:21-48 | login gets the email and password as typed; success goes to the destination, failure shows the error and stays; loading ends false |
| SignupPage.PasswordError | src/pages/SignupPage.tsx:42-58 | the form passes iff the passwords are equal and at least 6 UTF-16 units long; a mismatch is reported first |
| SignupPage.LengthBoundsOfCheck | src/pages/SignupPage.tsx:51-58 | six or more characters always pass the length check, and fewer than three never do |
| SignupPage.SignupForm.HandleSubmit | src/pages/SignupPage.tsx:39-88 | a failed check shows its message without calling signup; otherwise signup runs, success goes to /student and failure shows its error; loading ends false once signup ran |
| AppRoutes.Home | src/App.tsx:47 | an admin's home is /admin, everyone else's /student |
| AppRoutes.Guard | src/App.tsx:39-51 | no user goes to /login; a role mismatch goes home; otherwise the page renders, and only then |
| AppRoutes.RolePagesNeedRole | src/App.tsx:64-78 | an admin page renders only for an admin and a student page only for a student |
| AppRoutes.VisitorPagesRedirect | src/App.tsx:60-61 | a logged-in user goes from /login to their home and from /signup to /student (an admin then on to /admin); visitors see the forms |
| AppRoutes.UndeclaredLinksAreNotFound | src/App.tsx:81 | /admin/projects/edit/:id and /student/project/:id fall through to the not-found page for every user |
| StudentHome.FilterMembers | src/pages/student/StudentHomePage.tsx:16-20 | a project is listed iff it is in the input and its title or description contains the term and the filter is 'all' or its status |
| StudentHome.FilterAppend | src/pages/student/StudentHomePage.tsx:16 | filtering distributes over concatenation, so results keep the seed order |
| StudentHome.EmptySearchShowsAll | src/pages/student/StudentHomePage.tsx:11-20 | an empty term with 'all' lists every project in order |
| StudentHome.OneStatusNarrowsAll | src/pages/student/StudentHomePage.tsx:18 | one status's results are the 'all' results narrowed to that status, hence a subset |
| StudentHome.OnlyDemoProjects | src/pages/student/StudentHomePage.tsx:7-16 | only seed projects are ever listed, and with no term and no filter the list is the seed list |
| RegistrantsPage.AllOptionHidesEveryone | src/pages/admin/RegistrantsPage.tsx:43-47 | as written, selecting 'all' hides every registrant whose project id is not literally 'all' |
| RegistrantsPage.AllOptionMeansNoSelection | src/pages/admin/RegistrantsPage.tsx:43-47 | with the correction, 'all' lists exactly what no selection lists, and every other selection is unchanged |
| RegistrantsPage.FilterRegistrantsAsWritten | src/pages/admin/RegistrantsPage.tsx:43-47 | the list as written is never longer than the input |
| RegistrantsPage.FilterRegistrantsAsWrittenMembers | src/pages/admin/RegistrantsPage.tsx:43-47 | as written, a registrant is listed iff its name or email contains the term and either no project is selected or its project id equals the selection |
| RegistrantsPage.AllOptionAsWrittenListsNone | src/pages/admin/RegistrantsPage.tsx:43-47 | as written, 'all projects' lists nobody when no project id is literally 'all' |
| RegistrantsPage.FilterRegistrants | src/pages/admin/RegistrantsPage.tsx:43-47 | corrected filter (see Findings): the list is never longer than the input |
| RegistrantsPage.FilterRegistrantsMembers | src/pages/admin/RegistrantsPage.tsx:43-47 | corrected filter (see Findings): a registrant is listed iff its name or email contains the term and the selection is empty, 'all' or its project |
| RegistrantsPage.AllProjectsListsEveryone | src/pages/admin/RegistrantsPage.tsx:43-47 | corrected filter (see Findings): no term and 'all projects' list everyone, in order |
| RegistrantsPage.FindFile | src/pages/admin/RegistrantsPage.tsx:92 | a found file is the first in the list with the id; nothing is found iff no file has the id |
| RegistrantsPage.HandleDownloadFile | src/pages/admin/RegistrantsPage.tsx:67-106 | a non-admin is refused first, then a registrant without files; otherwise a missing or empty file id downloads all files and a known id downloads the first file with that id; every download is named nameEn_projectTitleEn.pdf; an unknown file id does nothing and shows nothing |
| FileDownload.IsConversionSupported | src/hooks/useFileDownload.ts:31-41 | 'original' always; pdf iff the lower-cased extension is pdf, doc, docx, txt or rtf; docx iff it is doc, docx, txt or rtf |
| FileDownload.DocxSupportImpliesPdf | src/hooks/useFileDownload.ts:34-35 | every extension supported for docx is supported for pdf, and pdf is the only extra one |
| FileDownload.ExtensionOf | src/hooks/useFileDownload.ts:55 | the extension holds no dot, is lower-case, and is the whole lower-cased name when there is no dot |
| FileDownload.DefaultMime | src/hooks/useFileDownload.ts:79 | the given type when non-empty, else the table's entry, else application/octet-stream; never empty |
| FileDownload.CleanName | src/hooks/useFileDownload.ts:107-108 | the cleaned name uses only A-Z, a-z, 0-9 and _ (its content is fixed by the lemmas below) |
| FileDownload.CollapseSpaces | src/hooks/useFileDownload.ts:107 | after collapsing whitespace runs to '_' no whitespace is left |
| FileDownload.KeepWordChars | src/hooks/useFileDownload.ts:107 | only word characters remain, and the result is no longer than the input |
| FileDownload.CollapseKeepsSolid | src/hooks/useFileDownload.ts:107 | a text without whitespace is unchanged by `replace(/\s+/g, '_')` |
| FileDownload.CollapseSpacesRun | src/hooks/useFileDownload.ts:107 | a maximal whitespace run between two parts becomes exactly one '_' between the collapsed parts |
| FileDownload.KeepWordCharsAppend | src/hooks/useFileDownload.ts:107 | dropping non-word characters works part by part: the result for a + b is the result for a followed by that for b |
| FileDownload.KeepWordCharsSingle | src/hooks/useFileDownload.ts:107 | one character is kept iff it is in [a-zA-Z0-9_] |
| FileDownload.KeepKeepsWords | src/hooks/useFileDownload.ts:107 | a text of word characters is kept whole |
| FileDownload.CleanNameRun | src/hooks/useFileDownload.ts:107-108 | cleaning a name with a whitespace run cleans both sides and joins them with one '_' |
| FileDownload.CleanKeepsWords | src/hooks/useFileDownload.ts:107-108 | a name of word characters is already clean |
| FileDownload.CleanDropsTrailingMark | src/hooks/useFileDownload.ts:107-108 | a trailing '!' after word characters is dropped |
| FileDownload.CleanNameExample | src/hooks/useFileDownload.ts:107-108 | worked case: words a and b written "a  b!" clean to "a_b" (for example "Ahmed  Ali!" gives "Ahmed_Ali") |
| FileDownload.CleanNameIdempotent | src/hooks/useFileDownload.ts:107-108 | cleaning a cleaned name changes nothing |
| FileDownload.FinalFileNameSplitsAtExtension | src/hooks/useFileDownload.ts:109 | the extension read back off student_project.ext is the file's own extension |
| FileDownload.ChooseOutput | src/hooks/useFileDownload.ts:55-104 | downloadFile's final extension is always the original one; the MIME type forces the pdf type only for a pdf request on a .pdf file (docx likewise) and the notices follow the support checks |
| FileDownload.ChooseDemoOutput | src/hooks/useFileDownload.ts:164-200 | downloadDemoFile keeps the original extension and reports a failed conversion for any pdf or docx request on a file of another type |
| FileDownload.OutputKeepsOriginal | src/hooks/useFileDownload.ts:78-104 | no request changes the type of a file not already in the requested format |
| FileDownload.Downloader.DownloadFile | src/hooks/useFileDownload.ts:48-147 | a failed fetch or an empty file sets the error and returns false; otherwise the file is saved under the cleaned name; downloading ends false |
| FileDownload.Downloader.DownloadDemoFile | src/hooks/useFileDownload.ts:150-281 | always saves under the cleaned name with the original extension and returns true |
| AddProjectPage.WithoutMembers | src/pages/admin/AddProjectPage.tsx:95 | removing a field drops every copy of it and keeps every other field |
| AddProjectPage.WithoutAppend | src/pages/admin/AddProjectPage.tsx:95 | removal distributes over concatenation, so the remaining fields keep their order |
| AddProjectPage.WithoutAbsent | src/pages/admin/AddProjectPage.tsx:95 | removing an absent field changes nothing |
| AddProjectPage.ToggleTwice | src/pages/admin/AddProjectPage.tsx:92-98 | toggling an unselected field twice restores the selection; toggling a selected one twice drops its duplicates and moves it to the end |
| AddProjectPage.InCategoryMembers | src/pages/admin/AddProjectPage.tsx:131-135 | a group holds exactly the options of its category |
| AddProjectPage.InCategoryAppend | src/pages/admin/AddProjectPage.tsx:131-135 | grouping distributes over concatenation, so options keep their order within a group |
| AddProjectPage.GroupByCategory | src/pages/admin/AddProjectPage.tsx:131-135 | the loop creates a group exactly for each category that occurs, holding that category's options in order |
| AddProjectPage.DemoGroups | src/pages/admin/AddProjectPage.tsx:131-135 | grouping the 28 field options gives a group for each of the six categories |
| AddProjectPage.PublishAgrees | src/pages/admin/AddProjectPage.tsx:100-115 | an edit keeps id, status and count and sets every form field; a new project gets the same form fields |
| AddProjectPage.Wizard.constructor | src/pages/admin/AddProjectPage.tsx:35-47 | the wizard starts on step 1 with an empty form and the name and email fields selected |
| AddProjectPage.Wizard.Next | src/pages/admin/AddProjectPage.tsx:414-419 | next exists only below step 3 and moves one step up, so the step stays within 1..3 |
| AddProjectPage.Wizard.Previous | src/pages/admin/AddProjectPage.tsx:405-412 | previous is disabled on step 1 and moves one step down |
| AddProjectPage.Wizard.Toggle | src/pages/admin/AddProjectPage.tsx:92-98 | a checkbox click applies the toggle to the selection |
| AddProjectPage.Wizard.LoadForEdit | src/pages/admin/AddProjectPage.tsx:52-70 | in edit mode a found project fills the form and replaces the selection with its fields; otherwise nothing changes |
| AddProjectPage.Wizard.Publish | src/pages/admin/AddProjectPage.tsx:100-129 | edit mode updates the project with the form and selection; otherwise one project is added and one success notification is put first; both go to /admin/projects |
| AdminProjectsPage.ToggledStatus | src/pages/admin/AdminProjectsPage.tsx:49 | closed becomes open; open and closing-soon become closed |
| AdminProjectsPage.ToggleTwice | src/pages/admin/AdminProjectsPage.tsx:49 | toggling twice is the identity exactly for the statuses other than closing-soon, which ends up open |
| AdminProjectsPage.ToggleChangesOnlyStatus | src/pages/admin/AdminProjectsPage.tsx:48-49 | only the status of the projects with the id changes |
| AdminProjectsPage.ToggleStatus | src/pages/admin/AdminProjectsPage.tsx:48-54 | the store receives the status patch for that id |
| AdminProjectsPage.HandleDelete | src/pages/admin/AdminProjectsPage.tsx:56-57 | the project is removed through deleteProject |
| NotificationsPage.NotificationsView.constructor | src/pages/student/NotificationsPage.tsx:15 | the page starts from the seed notifications, not the store |
| NotificationsPage.NotificationsView.MarkAsRead | src/pages/student/NotificationsPage.tsx:25-29 | clicking a card marks that notification read |
| NotificationsPage.NotificationsView.MarkAllAsRead | src/pages/student/NotificationsPage.tsx:31-35 | after marking all, the unread count is 0 and the button disappears |
| NotificationsPage.NotificationsView.ShowsMarkAll | src/pages/student/NotificationsPage.tsx:49-54 | the mark-all button is shown iff some notification is unread |
| NotificationsPage.DemoStartsWithThreeUnread | src/pages/student/NotificationsPage.tsx:15-35 | the page opens with three unread notifications |
| GradingSection.SaveWithoutEditing | src/components/admin/GradingSection.tsx:17-34 | saving at once reproduces the grade apart from signature and time, except that maxScore 0 becomes 100 and missing stars become 0; no grade saves 0/100 |
| GradingSection.SaveDoesNotCheckBounds | src/components/admin/GradingSection.tsx:23-34 | a score above the maximum is saved as given |
| GradingSection.StarFills | src/components/admin/GradingSection.tsx:42-53 | the star row has five entries |
| GradingSection.StarFillsArePrefix | src/components/admin/GradingSection.tsx:42-53 | star k is filled iff k is at most the value, so the filled stars are the first ones with no gap |
| GradingSection.StarRowAsWritten | src/components/admin/GradingSection.tsx:79 | as written, the text "0" is rendered exactly when the star value is 0; any other value is shown as a rating |
| GradingSection.ZeroStarsShowText | src/components/admin/GradingSection.tsx:79 | a grade saved without choosing stars shows a stray "0" as written and nothing with the correction |
| GradingSection.StarRowShown | src/components/admin/GradingSection.tsx:79 | the intended row never shows text and shows the rating iff the value is non-zero |
| GradingSection.StarRowsAgreeOtherwise | src/components/admin/GradingSection.tsx:79 | for every value other than 0 the two rows agree |
| GradingSection.SelectView | src/components/admin/GradingSection.tsx:62-107 | a student without a grade sees "not graded"; a student with one sees it; an admin gets the form while editing and an edit button exactly on a grade not being edited |
| GradingSection.GradeEditor.constructor | src/components/admin/GradingSection.tsx:17-21 | the editor starts editing iff there is no grade, with the `||` defaults |
| GradingSection.GradeEditor.StartEditing | src/components/admin/GradingSection.tsx:99-104 | the edit button turns editing on and keeps the values |
| GradingSection.GradeEditor.SetStars | src/components/admin/GradingSection.tsx:46 | clicking star k sets the value to k, which fills exactly k stars |
| GradingSection.GradeEditor.HandleSave | src/components/admin/GradingSection.tsx:23-34 | the current values go out as a grade signed by the admin, and editing ends |
| CommentsSection.GetInitialsSpec | src/components/admin/CommentsSection.tsx:42-44 | the initials are the first two word starts in their own case, with no space, and nothing for an empty name |
| CommentsSection.CommentBox.HandleSubmit | src/components/admin/CommentsSection.tsx:21-40 | without the admin role or a callback nothing happens; a blank comment is rejected and kept; otherwise it is sent untrimmed and the box is cleared |
| AdminNotesSection.NotesEditor.HandleChange | src/components/admin/AdminNotesSection.tsx:23-26 | the change flag is set iff the text differs from the saved notes, so typing them back clears it |
| AdminNotesSection.NotesEditor.HandleSave | src/components/admin/AdminNotesSection.tsx:28-30 | reachable only with changes and not saving; sends the text and clears the flag |
| AdminNotesSection.NotesEditor.ReceiveNotes | src/components/admin/AdminNotesSection.tsx:18-21 | new notes from outside reset the text to them and clear the flag |
| FileSubmissionModal.CheckSubmission | src/components/student/FileSubmissionModal.tsx:35-55 | no file is reported first; then a blank description; otherwise the file, the untrimmed description and the type are submitted, and only then |
| FileSubmissionModal.FreshDialogAsksForFile | src/components/student/FileSubmissionModal.tsx:24-44 | a fresh or closed dialog asks for a file whatever the description |
| FileSubmissionModal.SubmissionDialog.constructor | src/components/student/FileSubmissionModal.tsx:24-26 | no file, no description, type 'other' |
| FileSubmissionModal.SubmissionDialog.HandleFileChange | src/components/student/FileSubmissionModal.tsx:29-33 | the first picked file replaces the current one; an empty pick changes nothing |
| FileSubmissionModal.SubmissionDialog.HandleSubmit | src/components/student/FileSubmissionModal.tsx:35-55 | submitting changes no field and answers as the check says |
| FileSubmissionModal.SubmissionDialog.HandleClose | src/components/student/FileSubmissionModal.tsx:57-62 | closing resets file, description and type |
| Chatbot.Classify | src/components/Chatbot.tsx:32-56 | registration words win, then competition words, then upload words, else the default reply |
| Chatbot.ClassifyIgnoresCase | src/components/Chatbot.tsx:33 | the reply does not depend on letter case |
| Chatbot.ApplyWordWins | src/components/Chatbot.tsx:36-52 | appending the word apply, in any case, gets the registration reply whatever else the message says |
| Chatbot.BotResponse | src/components/Chatbot.tsx:32-56 | the reply looked up in the window's table is never empty, whatever the table holds |
| Chatbot.BotResponseTranslated | src/components/Chatbot.tsx:32-56 | under either language the reply is exactly what `t` gives for the chosen reply's key |
| Chatbot.SendThenReply | src/components/Chatbot.tsx:58-81 | with no reply pending, a message and its reply, whatever its text, are appended with ids length+1 and length+2 and the ids stay positional; the box is cleared and typing ends |
| Chatbot.QuickSecondSendDuplicatesId | src/components/Chatbot.tsx:61-78 | as written, a second message sent before the first reply arrives shares that reply's id |
| Chatbot.FixedIdsStayPositional | src/components/Chatbot.tsx:61-78 | with ids taken when a message is appended, ids stay equal to positions plus one, hence distinct, in any interleaving |
| Chatbot.ChatWindow.ToggleOpen | src/components/Chatbot.tsx:22-26 | the welcome message is added only when the window opens on an empty list |
| Chatbot.ChatWindow.SendMessage | src/components/Chatbot.tsx:58-81 | a blank input sends nothing; otherwise the state becomes the send step, with the reply getBotResponse gives for the input |
| Chatbot.ChatWindow.DeliverReply | src/components/Chatbot.tsx:72-80 | the oldest reply is appended and typing ends |
| LangContext.TableOf | src/contexts/LangContext.tsx:148 | there is a table exactly for 'ar' and 'en' |
| LangContext.Lookup | src/contexts/LangContext.tsx:149 | a non-empty entry is returned; a missing or empty one falls back to the key |
| LangContext.LookupNeverEmpty | src/contexts/LangContext.tsx:149 | for a non-empty key the lookup never returns empty text |
| LangContext.TableOfCode | src/contexts/LangContext.tsx:12-129 | the code of each language selects exactly that language's table |
| LangContext.T | src/contexts/LangContext.tsx:147-150 | t works exactly under 'ar' and 'en', answering with the lookup, never empty for a non-empty key |
| LangContext.Translate | src/contexts/LangContext.tsx:147-150 | under either language t always answers, never empty for a non-empty key |
| LangContext.Dir | src/contexts/LangContext.tsx:139 | the direction is rtl iff the language is 'ar', and ltr otherwise |
| LangContext.InitialLang | src/contexts/LangContext.tsx:134-137 | nothing saved gives 'ar'; a saved non-empty value is used unchecked |
| LangContext.UncheckedSavedLanguage | src/contexts/LangContext.tsx:134-150 | a saved code other than 'ar' or 'en' makes every lookup fail and sets ltr; 'ar' and 'en' work |
| LangContext.ChatKeysTranslated | src/contexts/LangContext.tsx:12-129 | every key the chat window uses is present in both tables |
| LangContext.LangProvider.constructor | src/contexts/LangContext.tsx:134-137 | the language starts as the saved value, or 'ar' |
| LangContext.LangProvider.Direction | src/contexts/LangContext.tsx:139 | the provider's direction is rtl iff its language is 'ar' |
| StatusBadge.StatusLabel | src/components/admin/StatusBadge.tsx:52-54 | each status value gets its configured label; any other value is shown as it is |
| StatusBadge.AllStatusesComplete | src/components/admin/StatusBadge.tsx:56 | the list has four entries, every status, each once |
| StatusBadge.LabelsDistinct | src/components/admin/StatusBadge.tsx:16-35 | the labels are pairwise distinct, non-empty and map to themselves under the fallback |
| StatusBadge.WireNamesDistinct | src/components/admin/StatusBadge.tsx:11-36 | the status values are pairwise distinct |
| AvatarPlaceholder.InitialsSpec | src/components/ui/avatar-placeholder.tsx:17-22 | the initials are the first two word starts upper-cased, with no space, and nothing for an empty name |
| AvatarPlaceholder.DoubleSpaceIgnored | src/components/ui/avatar-placeholder.tsx:17-22 | a double space between two words gives the same initials as a single one |
| Text.TrimEmptyIffBlank | src/components/admin/CommentsSection.tsx:26 | a text trims to nothing iff it is only whitespace |
| Text.FirstCharsOfSplit | src/components/ui/avatar-placeholder.tsx:17-20 | the first characters of the space-separated words are the characters that start a word |

## Left out

- Persistence is left out. Local storage and JSON (de)serialisation are not modelled; a saved value is a constructor parameter.
- Clocks are left out. `Date.now()` ids, ISO timestamps and date formatting are parameters or not modelled.
- Timers are left out. The chatbot's 500 ms delay becomes a separate delivery step.
- Toasts, navigation plumbing and the rendered markup are left out, except where a view choice is itself a rule.
- Supabase storage and the Blob/URL download plumbing are left out. A fetch is a `FetchResult` parameter; the demo file's generated content is not modelled.
- Unicode case mapping is left out. `toLowerCase`/`toUpperCase` change only ASCII letters here; the Arabic texts and keys are unaffected.
- Object prototype keys are left out. A lookup of a key such as "constructor" in a JavaScript object literal is not modelled.
- AvatarPlaceholder.InitialsSpec and CommentsSection.GetInitialsSpec treat each Dafny `char` as one unit. Taking `w[0]` of a word that starts with a surrogate pair yields a lone surrogate in JavaScript, and that is not modelled.
- NaN scores are left out. `Number(e.target.value)` on a non-numeric field is not modelled; scores are integers.
- React Router's case-insensitive matching and trailing-slash handling are left out; routes are modelled on already split path segments.
- React state batching and re-render timing are left out. Each handler is one atomic step, and effects run as the step that follows their trigger.
- The statistics pages, StudentProjectDetails, profile pages and `useGrades` are not part of this model.
- LoginPage.LoginForm.HandleSubmit and SignupPage.SignupForm.HandleSubmit do not expose the loading flag's value while the call is awaited; only its value afterwards is stated.
- The catch-all message of the download hook's `catch` for a thrown value that is not an `Error` is left out: every failure the model raises is an `Error` with its own message.
- Chatbot.ChatWindow.SendMessage reads from the table fixed when the window is created. The source's `t` follows the current language, so a language switch while the window is mounted is not modelled.

## Findings

| source | as written | input that shows it | evidently intended | confidence | as-written member | corrected member |
|---|---|---|---|---|---|---|
| src/pages/admin/RegistrantsPage.tsx:45 | the project filter treats only the empty selection as "no filter" | choose the select's "all projects" option (value 'all'): every registrant disappears | 'all' lists every registrant, as its label says | not executed | RegistrantsPage.AllOptionAsWrittenListsNone | RegistrantsPage.AllProjectsListsEveryone |
| src/components/admin/GradingSection.tsx:79 | `{grade.stars && <StarRating/>}` renders the number when stars is 0 | save a grade without clicking a star: stars is 0 and a stray "0" appears beside the score | no star row and no text for 0 stars | not executed | GradingSection.ZeroStarsShowText | GradingSection.StarRowShown |
| src/components/Chatbot.tsx:61-78 | the reply's id is computed from the list length when the message is sent | send two messages within 500 ms: the second message and the first reply both get id length+2 | each message, reply included, gets a distinct id | not executed | Chatbot.QuickSecondSendDuplicatesId | Chatbot.FixedIdsStayPositional |

The registrant list as written is `RegistrantsPage.FilterRegistrantsAsWritten`
(with `AllOptionHidesEveryone` for one registrant); the corrected list is
`RegistrantsPage.FilterRegistrants`, with `FilterRegistrantsMembers` and
`AllOptionMeansNoSelection` relating the two predicates.

The chat window class follows the source's id rule. The corrected rule is
`Chatbot.SendFixed` and `Chatbot.DeliverFixed`, and its distinct-id
invariant is proved about them.
