# eduTrack — a verified model of its policy core

eduTrack is a school-to-parent app. An Express/Mongoose server keeps students, grades,
users and notifications. A React Native client lets teachers manage their classes and
message parents, and lets parents follow their children. This project models the part
of the system that makes decisions, and proves what those decisions guarantee:

- **Server routes** (`students.js`, `notifications.js`, `auth.js`).
  - The database is a `Store.Database` class holding one map per collection and an id counter.
  - Every route is a method on that store that returns a `Response`.
  - Each method's contract spells out:
    - the status code and message of every outcome;
    - the order of the checks (404 before 403);
    - the new store, and that the store is unchanged on every refusal;
    - the store invariant `Valid()`: keyed maps, valid records, unique student ids and emails.
  - The list routes are proved to return exactly the scoped, filtered records, sorted and paged.
- **Schemas** (`models/*.js`).
  - Records are datatypes, with validity predicates and constructors that fill in the defaults.
  - Each enumeration has a parser proved to be the inverse of its name function.
  - The user's pre-save hook is a method on a `UserDocument` class.
- **Client stores** (`StudentContext.tsx`, `AuthContext.tsx`).
  - The reducers are total functions, each with per-action "what changes, what stays" contracts.
  - The provider actions are short dispatch sequences. A parameter supplies the server call's outcome.
  - The session invariant (authenticated ⇔ a user is present) is proved for every sequence of actions.
- **Client screens.**
  - The login, sign-up and add-student validators check in order and then normalise.
  - The compose screen de-duplicates recipients and sends one request per recipient.
  - The parent's children filter and role guard.
  - The two notification feeds (a `FeedScreen` class): load, refresh, load-more, mark-as-read, and the "Nm/Nh/Nd ago" buckets.

Shared helpers live in `Text` (JavaScript `trim`, `toLowerCase`, `toUpperCase`, `includes`,
`parseInt`, decimal rendering, string order) and `Seqs` (`filter`, `map`, `[...new Set()]`,
sorting, skip/limit paging, and selecting the keys of a map).

Behaviours of the code that the model states as they are:

- **Schema validation failures answer 500.** A missing or out-of-range field makes `save()` throw, and the exception reaches the handler's catch-all, which answers 500 "Server error" (`students.js:91-95`, `students.js:114-119`, `students.js:140-156`, `auth.js:28-50`, `notifications.js:73-99`). `CreateStudent`, `UpdateStudent`, `AddGrade`, `Register` and `Compose` all model this.
- **A failed grade notification answers 500 after the grade is saved.** The notification is saved inside the same `try` as the grade (`students.js:139-153`), so a failure there reaches the same catch-all, although the grade is already stored. `StudentRoutes.AddGrade` states this.
- **Sent-notifications screen.** The teacher's screen requests `GET /notifications/sent`, and the notifications router has no such route. `NotificationRoutes.SentHasNoRoute` and `Feed.SentFeedUnrouted` prove that the request reaches no handler.
- **Compose.** The push dispatch calls an identifier that is never imported, so it always throws into a catch that only logs. `NotificationRoutes.Compose` is proved independent of that outcome.

## Model

| member | source | states |
|---|---|---|
| Schema.ParseRole | eduTrack/server/models/User.js:20-24 | the role cast accepts exactly "teacher", "parent", "student", and is the inverse of RoleName |
| Schema.ParseGradeType | eduTrack/server/models/Student.js:14-18 | a grade type is one of the seven names, and parsing inverts GradeTypeName |
| Schema.ParseBehavior | eduTrack/server/models/Student.js:50-54 | behavior is one of excellent/good/average/poor, and parsing inverts BehaviorName |
| Schema.ParseNotificationType | eduTrack/server/models/Notification.js:12-16 | type is one of grade_update/attendance/general, and parsing inverts NotificationTypeName |
| Schema.NewGrade | eduTrack/server/models/Student.js:3-23 | a grade saves iff its subject is non-empty, its score lies in [0,10] and its type is known; the type defaults to homework and the date to now |
| Schema.ScoreBounds | eduTrack/server/models/Student.js:8-13 | scores 0 and 10 are accepted and every score outside [0,10] is refused |
| Schema.NewStudent | eduTrack/server/models/Student.js:25-66 | a new student has no grades, attendance 0, behavior good and empty notes, and is valid iff name, studentId, class and parentEmail are all non-empty |
| Schema.NewNotification | eduTrack/server/models/Notification.js:3-36 | a notification saves iff title, message and recipient are non-empty and the type is known; it is unread, the type defaults to general, and every given field is kept |
| Schema.PasswordAfterPreSave | eduTrack/server/models/User.js:34-55 | the stored password is left as it was when the password was not modified or already starts with $2a$, $2b$ or $2y$; otherwise it is replaced by the hash |
| Schema.UserDocument.constructor | eduTrack/server/models/User.js:5-28 | a new user document stores its email lower-cased and counts its password as modified |
| Schema.UserDocument.PreSave | eduTrack/server/models/User.js:34-55 | the pre-save hook changes only the password, to PasswordAfterPreSave of the old one |
| Schema.ComparePassword | eduTrack/server/models/User.js:58-68 | the comparison succeeds exactly when bcrypt matched; a thrown error reads as a mismatch |
| Store.Database.constructor | eduTrack/server/models/Student.js:31-33 | the empty database, with no students, notifications or users, satisfies the store invariant, including the unique index on studentId |
| StudentRoutes.BuildFilter | eduTrack/server/routes/students.js:12-35 | a record matches the built filter iff it is in the caller's scope (a teacher's own students, a parent's exact email, anything for a student) and it passes the search and the class filters |
| StudentRoutes.NameOrder | eduTrack/server/routes/students.js:40 | ordering by name is a total preorder, so the sorted page is well defined |
| StudentRoutes.ListStudents | eduTrack/server/routes/students.js:9-54 | the selected ids are exactly the scoped matches, each once; total counts them and totalPages is ceil(total/limit); the page is the page-th window of the name-sorted matches and is sorted and at most limit long; a page below 1 is a 500 |
| Seqs.Select | eduTrack/server/routes/students.js:37-42 | selecting from a collection yields every key whose document satisfies the filter, and only those, each once |
| Seqs.Page | eduTrack/server/routes/students.js:37-40 | a page holds at most limit items, all drawn from the input |
| Seqs.PageSorted | eduTrack/server/routes/students.js:37-40 | every page of a sort by a total preorder is itself sorted |
| Seqs.PagePastEnd | eduTrack/server/routes/students.js:37-48 | a page is empty exactly when its number exceeds ceil(total/limit) |
| Seqs.EveryItemOnSomePage | eduTrack/server/routes/students.js:37-48 | every matching record appears on some page between 1 and totalPages |
| StudentRoutes.FetchStudent | eduTrack/server/routes/students.js:57-70 | any authenticated caller receives the stored record, whoever owns it; an unknown id is a 404; nothing changes |
| StudentRoutes.CreateStudent | eduTrack/server/routes/students.js:73-97 | non-teachers are refused; a taken studentId is a 400 with the store unchanged; otherwise exactly one record with the caller as teacherId, the four body fields and the schema defaults is added, or the store is unchanged and the answer is 500 when a field is empty |
| StudentRoutes.ApplyPatch | eduTrack/server/routes/students.js:113 | every field present in the body replaces the stored one, teacherId included, and every absent field is kept; an unknown behavior fails the cast |
| StudentRoutes.NoChangesIsIdentity | eduTrack/server/routes/students.js:113 | an empty body leaves the record as it was |
| StudentRoutes.ApplyPatchIdempotent | eduTrack/server/routes/students.js:113 | copying the same body twice gives the same record as copying it once |
| StudentRoutes.UpdateStudent | eduTrack/server/routes/students.js:100-121 | 404 before 403, each leaving the store unchanged; an owner's update stores the patched record when it is valid and keeps studentIds unique, and otherwise answers 500 with the store unchanged |
| StudentRoutes.GradeNotification | eduTrack/server/routes/students.js:143-151 | the grade notification is a valid, unread grade_update to the student's parentEmail, tagged with the studentId and sent by the caller |
| StudentRoutes.AddGrade | eduTrack/server/routes/students.js:124-158 | 404 before 403; an owner's valid grade is appended at the end of the grades, with earlier grades unchanged, and exactly one grade notification is inserted; if saving the notification fails, the answer is 500 but the grade stays |
| StudentRoutes.DeleteStudent | eduTrack/server/routes/students.js:161-180 | 404 before 403; the owner's delete removes exactly that record and nothing else |
| NotificationRoutes.NewestFirstOrder | eduTrack/server/routes/notifications.js:18 | ordering by creation time, newest first, is a total preorder |
| NotificationRoutes.ListNotifications | eduTrack/server/routes/notifications.js:8-34 | exactly the notifications addressed to the caller's email, newest first, in pages of limit (default 20); total and totalPages count the same selection |
| NotificationRoutes.MarkRead | eduTrack/server/routes/notifications.js:37-58 | 404 before 403, with the store unchanged; the recipient's request sets isRead and nothing else, and on an already read notification changes nothing |
| NotificationRoutes.Compose | eduTrack/server/routes/notifications.js:61-101 | any caller may compose; the sender is the caller, the type defaults to general and the recipient is kept verbatim; the answer is 201 whatever the push dispatch does, or 500 with the store unchanged when validation fails |
| NotificationRoutes.Dispatch | eduTrack/server/routes/notifications.js:8-61 | dispatch picks the first declared route that matches the verb and the path, and none when no route matches |
| NotificationRoutes.SentHasNoRoute | eduTrack/client/src/services/api.ts:128-131 | GET /notifications/sent, which the client calls, matches no route of the notifications router |
| NotificationRoutes.MarkReadRouted | eduTrack/server/routes/notifications.js:37 | PUT /:id/read reaches the mark-read handler for every non-empty id |
| AuthRoutes.Project | eduTrack/server/routes/auth.js:40-46 | the user in a response carries id, email, name, role and phone |
| AuthRoutes.ProjectionHidesPassword | eduTrack/server/routes/auth.js:40-46 | two users that differ only in their password project identically, so the password never shows |
| AuthRoutes.CastRole | eduTrack/server/routes/auth.js:20-26 | a role is accepted iff it is present and names one of the three roles |
| AuthRoutes.PhoneOrEmpty | eduTrack/server/routes/auth.js:25 | an absent phone becomes the empty string |
| AuthRoutes.Register | eduTrack/server/routes/auth.js:9-52 | an already registered email is a 400 "User already exists" with the store unchanged; otherwise exactly one user is added, with a lower-cased email and the hashed password, and the 201 answer carries a token for its id and the projected user |
| AuthRoutes.Login | eduTrack/server/routes/auth.js:55-93 | an unknown email and a wrong password give the identical 400 "Invalid credentials"; a match gives a token for the found user's id and the projected user |
| AuthRoutes.Me | eduTrack/server/routes/auth.js:96-111 | /me answers 200 with exactly the caller's id, email, name, role and phone |
| AuthRoutes.MeHidesPassword | eduTrack/server/routes/auth.js:98-105 | the /me answer does not depend on the stored password |
| StudentState.ReplaceById | eduTrack/client/src/contexts/StudentContext.tsx:96-107 | entries with the updated id are replaced; the length and every other entry stay |
| StudentState.RemoveById | eduTrack/client/src/contexts/StudentContext.tsx:108-117 | no entry with the id is left, and every other entry is kept |
| StudentState.RemoveKeepsOrder | eduTrack/client/src/contexts/StudentContext.tsx:108-117 | the students left after a removal keep their order |
| StudentState.RemoveCounts | eduTrack/client/src/contexts/StudentContext.tsx:108-117 | a removal drops every copy of a matching student and keeps every copy of the others |
| StudentState.RemoveAbsentId | eduTrack/client/src/contexts/StudentContext.tsx:108-117 | removing an id that no student has leaves the list as it was |
| StudentState.ReplaceIdempotent | eduTrack/client/src/contexts/StudentContext.tsx:96-107 | receiving the same updated student twice gives the same list as once |
| StudentState.Reduce | eduTrack/client/src/contexts/StudentContext.tsx:64-123 | for each action, what changes and that everything else stays: SET_LOADING clears the error; SET_STUDENTS takes the list and all three pagination fields; ADD_STUDENT prepends; UPDATE/DELETE act by id and touch currentStudent only when its id matches; CLEAR_CURRENT_STUDENT nulls only currentStudent |
| StudentState.LoadStudents | eduTrack/client/src/contexts/StudentContext.tsx:130-143 | a failed load records the message or its fallback and does not rethrow; a successful one takes the server's list and pagination, clears the error and keeps currentStudent |
| StudentState.LoadStudent | eduTrack/client/src/contexts/StudentContext.tsx:145-153 | a failed load records the error without rethrowing; a successful one sets currentStudent and clears the error, keeping the list and pagination |
| StudentState.CreateStudent | eduTrack/client/src/contexts/StudentContext.tsx:155-169 | the new student goes first, with currentStudent and pagination kept; a failure is recorded and rethrown |
| StudentState.UpdateStudentAction | eduTrack/client/src/contexts/StudentContext.tsx:171-180 | the returned student replaces the entries with its id and becomes currentStudent when that has its id; pagination is kept; a failure is recorded and rethrown |
| StudentState.DeleteStudentAction | eduTrack/client/src/contexts/StudentContext.tsx:182-191 | the entries with the id go, and currentStudent is cleared when it has that id; pagination is kept; a failure is recorded and rethrown |
| StudentState.AddGrade | eduTrack/client/src/contexts/StudentContext.tsx:193-206 | the returned student replaces the entries with its id and becomes currentStudent when that has its id; pagination is kept; a failure is recorded and rethrown |
| StudentState.ClearCurrent | eduTrack/client/src/contexts/StudentContext.tsx:208-210 | only currentStudent is cleared; the list, loading flag, error and pagination are kept |
| AuthState.Reduce | eduTrack/client/src/contexts/AuthContext.tsx:43-71 | SET_LOADING changes only isLoading; SET_USER and RESTORE_USER set the user, authenticate and stop loading; CLEAR_USER signs out and stops loading; every action preserves authenticated ⇔ user present |
| AuthState.RunPreservesConsistency | eduTrack/client/src/contexts/AuthContext.tsx:43-71 | any sequence of actions from a consistent state ends in a consistent state |
| AuthState.EveryReachableStateConsistent | eduTrack/client/src/contexts/AuthContext.tsx:36-71 | every state reachable from the initial state is consistent |
| AuthState.Restore | eduTrack/client/src/contexts/AuthContext.tsx:85-102 | the session is restored exactly when both stored items are present and parse; loading ends either way |
| AuthState.RestoreAtStartup | eduTrack/client/src/contexts/AuthContext.tsx:36-40 | from the initial state, restoring ends consistent, not loading, and authenticated iff both items are present and parse |
| AuthState.Login | eduTrack/client/src/contexts/AuthContext.tsx:104-119 | success signs the user in; failure keeps the session, stops loading and rethrows the server's message or "Login failed" |
| AuthState.Register | eduTrack/client/src/contexts/AuthContext.tsx:121-142 | as login, with the fallback "Registration failed" |
| AuthState.FailedLoginStaysSignedOut | eduTrack/client/src/contexts/AuthContext.tsx:115-118 | a failed login from a signed-out state stays signed out, stops loading and throws |
| AuthState.Logout | eduTrack/client/src/contexts/AuthContext.tsx:144-154 | the session is cleared unless clearing storage fails, in which case nothing changes |
| Forms.HandleLogin | eduTrack/client/src/screens/LoginScreen.tsx:28-44 | empty fields first, then a missing @; login is called iff both checks pass, with the email lower-cased and trimmed and the password as typed |
| Forms.LoginEmailNormalised | eduTrack/client/src/screens/LoginScreen.tsx:40 | the email sent is lower-case, trimmed and still contains @ |
| Forms.HandleRegister | eduTrack/client/src/screens/RegisterScreen.tsx:35-68 | required fields, @, length ≥ 6 and matching confirmation are checked in that order, and register is called iff all pass; the payload has the trimmed name and phone, the normalised email and the password as typed |
| Forms.RegisterPayloadValidOnServer | eduTrack/client/src/screens/RegisterScreen.tsx:35-64 | an accepted sign-up with a name that is not all whitespace passes the server's validation of a new user |
| Forms.BlankNamePassesCheck | eduTrack/client/src/screens/RegisterScreen.tsx:37-40 | a name of spaces passes the required-field check and reaches the server empty, where validation refuses it |
| Forms.HandleSubmit | eduTrack/client/src/screens/AddStudentScreen.tsx:40-72 | required fields, then @ in the parent's email, then attendance as an integer in [0,100]; the payload has the trimmed name, the trimmed and upper-cased studentId, the trimmed class and the normalised email |
| Forms.DefaultAttendanceOk | eduTrack/client/src/screens/AddStudentScreen.tsx:26-34 | the untouched attendance field "100" passes its check |
| Forms.PayloadIgnoresExtras | eduTrack/client/src/screens/AddStudentScreen.tsx:59-64 | attendance, behavior and notes never reach the payload |
| Forms.StudentIdNormalised | eduTrack/client/src/screens/AddStudentScreen.tsx:61 | the student id sent has no lower-case letters |
| Compose.RecipientEmails | eduTrack/client/src/screens/ComposeNotificationScreen.tsx:65-83 | 'specific' yields exactly the typed address; 'all' yields exactly the loaded parents' emails and 'class' exactly those of the chosen class, each once |
| Compose.DistinctParents | eduTrack/client/src/screens/ComposeNotificationScreen.tsx:67-68 | the de-duplicated parent emails are exactly the parents of the loaded students |
| Compose.DistinctParentsInClass | eduTrack/client/src/screens/ComposeNotificationScreen.tsx:73-78 | the de-duplicated emails of a class are exactly the parents of that class's students |
| Compose.AllInFirstOccurrenceOrder | eduTrack/client/src/screens/ComposeNotificationScreen.tsx:67-68 | sending to everyone lists the parents in the order of their first child |
| Seqs.Dedup | eduTrack/client/src/screens/ComposeNotificationScreen.tsx:50-58 | [...new Set(s)] holds every element of s once and nothing else |
| Seqs.DedupFirstOccurrenceOrder | eduTrack/client/src/screens/ComposeNotificationScreen.tsx:50-58 | the de-duplicated elements appear in the order of their first occurrence |
| Compose.HandleSend | eduTrack/client/src/screens/ComposeNotificationScreen.tsx:85-142 | blank title or message, specific without an address, class without a class, and no recipients (for any audience) are refused in that order; a form passing all four checks is accepted, and then yields exactly one request per recipient, with the trimmed title and message and the chosen type |
| Compose.EveryParentOnce | eduTrack/client/src/screens/ComposeNotificationScreen.tsx:112-119 | a send to everyone reaches every loaded parent, and never the same address twice |
| Compose.RefreshPickers | eduTrack/client/src/screens/ComposeNotificationScreen.tsx:49-59 | the pickers stay as they were while no students are loaded; otherwise they list every loaded class and every loaded parent email once, nothing else, in first-occurrence order |
| Compose.ClassPicker | eduTrack/client/src/screens/ComposeNotificationScreen.tsx:52 | the de-duplicated class list holds exactly the loaded classes |
| Compose.EmailPicker | eduTrack/client/src/screens/ComposeNotificationScreen.tsx:56 | the de-duplicated email list holds exactly the loaded parent emails |
| Feed.FeedScreen.constructor | eduTrack/client/src/screens/NotificationsScreen.tsx:25-30 | a new screen has nothing loaded and is on page 1 of 1 |
| Feed.FeedScreen.Load | eduTrack/client/src/screens/NotificationsScreen.tsx:36-60 | page pageNum of 20 is requested; on success the page is appended or replaces the list, and page and totalPages are taken over; on failure the list and position stay and the alert falls back; every flag ends down |
| Feed.FeedScreen.Refresh | eduTrack/client/src/screens/NotificationsScreen.tsx:62-65 | a refresh reloads page 1 and replaces the list |
| Feed.FeedScreen.LoadMore | eduTrack/client/src/screens/NotificationsScreen.tsx:67-73 | nothing happens while a load-more runs or on the last page; otherwise page+1 is requested and appended |
| Feed.FeedScreen.MarkAsRead | eduTrack/client/src/screens/NotificationsScreen.tsx:75-90 | an item already read sends nothing; otherwise its id is sent, and after success exactly the items with that id are read |
| Feed.MarkedRead | eduTrack/client/src/screens/NotificationsScreen.tsx:82-86 | the length is kept; items with the id become read and all others stay |
| Feed.MarkedReadIdempotent | eduTrack/client/src/screens/NotificationsScreen.tsx:82-86 | marking the same id twice is the same as once |
| Feed.MarkedReadLowersUnread | eduTrack/client/src/screens/NotificationsScreen.tsx:82-86 | marking never adds unread items, and marking a loaded unread one removes at least one |
| Feed.AgeOf | eduTrack/client/src/screens/NotificationsScreen.tsx:114-131 | under an hour gives floor minutes, under a day floor hours (1-23), under a week floor days (1-6), otherwise a calendar date; each count brackets the elapsed time |
| Feed.DaysFromHours | eduTrack/client/src/screens/NotificationsScreen.tsx:118-119 | flooring to hours and then to days equals flooring to days |
| Feed.FormatDate | eduTrack/client/src/screens/NotificationsScreen.tsx:114-131 | under an hour the label is the floored minutes + "m ago", under a day the floored hours + "h ago", under a week the floored days + "d ago"; after a week it is the calendar date |
| Feed.MinutesLabel | eduTrack/client/src/screens/NotificationsScreen.tsx:121-123 | within the first hour the label is the whole minutes elapsed, and it reads back as that number |
| Feed.IconsDistinguishTypes | eduTrack/client/src/screens/NotificationsScreen.tsx:92-112 | the three types get three different icons and colours, and every other type string looks like general |
| Feed.SentFeedUnrouted | eduTrack/client/src/screens/TeacherNotificationsScreen.tsx:36-60 | the sent feed requests a path the router does not handle, while the inbox reaches the list handler |
| Feed.StatusLabel | eduTrack/client/src/screens/TeacherNotificationsScreen.tsx:139-142 | the label is "Read" exactly when the item is read, and "Unread" otherwise |
| Feed.SentHeader | eduTrack/client/src/screens/TeacherNotificationsScreen.tsx:178-197 | no header for an empty list; "1 notification sent" for one item, "N notifications sent" for more |
| Feed.Plural | eduTrack/client/src/screens/TeacherNotificationsScreen.tsx:182 | the suffix is added unless the count is exactly 1 |
| Children.MyChildren | eduTrack/client/src/screens/ParentStudentsScreen.tsx:47-49 | the children shown are exactly the loaded students whose parentEmail equals the user's email |
| Children.MyChildrenKeepsOrder | eduTrack/client/src/screens/ParentStudentsScreen.tsx:47-49 | the children shown keep the server's order, each as often as the server sent it |
| Children.FilterRedundantForServerPage | eduTrack/client/src/screens/ParentStudentsScreen.tsx:47-49 | on a page the server already scoped to the parent, the client filter changes nothing |
| Children.LoadMyChildren | eduTrack/client/src/screens/ParentStudentsScreen.tsx:33-59 | the request is page 1 with limit 100 and no search or class; a successful load shows the filtered page, never longer than the answer; a failure keeps the list and alerts |
| Children.AtMostLimitShown | eduTrack/client/src/screens/ParentStudentsScreen.tsx:42-44 | when the server honours the limit, at most 100 children are shown |
| Children.Render | eduTrack/client/src/screens/ParentStudentsScreen.tsx:73-138 | anyone but a signed-in parent gets the access-denied view; a parent sees the list, with a "1 child found" or "N children found" header only when it is non-empty, the "No Children Found" notice exactly when it is empty and not loading, and the loading overlay exactly when it is empty and loading |
| Children.ShownChildrenAreOwn | eduTrack/client/src/screens/ParentStudentsScreen.tsx:47-51 | after a successful load a parent sees the list, and every child on it is theirs |
| Text.TrimIdempotent | eduTrack/client/src/screens/AddStudentScreen.tsx:59-64 | trimming twice is trimming once |
| Text.NormalizeEmailStable | eduTrack/client/src/screens/LoginScreen.tsx:40 | a lower-cased and trimmed email is lower-case and trimmed |
| Text.ParseDecimalRoundTrip | eduTrack/client/src/screens/AddStudentScreen.tsx:52-56 | parseInt reads every decimal rendering of a natural number back as that number |
| Text.ContainsOwnCase | eduTrack/server/routes/students.js:25-30 | the search ignores case: a search string is found in its own upper-cased form |

## Left out

- MongoDB I/O: the store is an in-memory map with its own id counter. The following are not modelled:
  - ObjectId generation and casting (a malformed id, which the code answers with 500);
  - `populate` of the sender's name;
  - the `updatedAt` timestamp.
- StudentRoutes.SearchHit: the search is a case-insensitive substring test. Regular-expression metacharacters in the search string are not interpreted.
- Text.ToLower / Text.ToUpper: case mapping covers ASCII letters only, and string length counts code points, not UTF-16 units.
- StudentRoutes.ListStudents / NotificationRoutes.ListNotifications: limit ≥ 1 is required. What MongoDB does with a limit of 0 or below, and with non-numeric query strings, is not modelled.
- The `authMiddleware` and `teacherOnly` middleware are not part of this model. The caller is a parameter. A teacher-only refusal is the distinct outcome `TeacherOnlyRejected`, because its status code is not visible.
- Body fields: a field that is absent from a request body is modelled as the empty string where the schema requires it, because Mongoose refuses both alike.
- bcrypt and JWT: the hash and the comparison outcome are parameters, and a token is the user id it is signed for.
- StudentRoutes.AddGrade: the score's rendering in the notification message is a parameter (`scoreText`). JavaScript number formatting is not modelled. Whether the notification save fails is also a parameter.
- NotificationRoutes.Compose: the push service (`PushNotificationService.js`) and the client's local notifications are not part of this model.
- AuthState.Restore: a stored user that parses to `null` is treated as a parse failure. In the code, `RESTORE_USER(null)` sets `isAuthenticated` to true with `user` null (`AuthContext.tsx:92-94`), a state that breaks `Consistent`; the model does not capture that state.
- Children.LoadMyChildren: a parent with more than 100 students on the server sees only the first 100 by name; the model states the request and the cap, not which students are dropped.
- Secure storage, the axios client and its interceptors are not modelled; their results are parameters.
- Feed.FormatDate: the clock is a parameter, `toLocaleDateString` is the parameter `calendar`, and invalid dates (NaN) are not modelled.
- Compose.HandleSend: `Promise.all` runs the create requests concurrently. The model returns them as a sequence. The partial effects of a failure halfway are not modelled, nor are the success and failure alerts.
- Alerts, navigation, rendering and styles are not modelled, beyond the alert texts and header strings the contracts name.
- The client `Student` keeps only the fields the client logic reads. The client's narrower grade type (homework/test/exam) is not modelled.
- Floating-point statistics (averages, best and lowest scores) and `parseFloat` score entry are not part of this model. Scores are reals that are only compared.
