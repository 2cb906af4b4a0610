# NikitaCRM core, modelled in Dafny

NikitaCRM is an iOS CRM app whose SwiftUI screens read and write a Firebase
realtime database and authenticate with Firebase Auth. The model covers the
rules between those screens and the database:
- how tasks, posts, calendar events and user profiles are decoded from the
  store and encoded into it;
- how the task list is searched, filtered and sorted;
- how calendar events are bucketed by day;
- how the news feed is loaded newest first and signed with the author's
  email name;
- how the signed-in user's profile is cached and kept in step with the
  authentication state;
- the admin screen's user search, self-protection gates and its deletion
  and creation sequences;
- the task editor's assignee selection;
- the login form's validation and sign-in sequence.

The database is one `Store.Collection` object per path (`tasks`, `posts`,
`calendarEvents`, `users`), holding a map from child key to a JSON-like
`Wire.Value`. The identity provider is a `Store.Auth` object holding the
signed-in session (uid, optional email) and the set of existing identities.

Every Firebase call is a method on those objects. Its completion error,
which the service decides, is a parameter (`failure`). Inputs the app takes
from outside are parameters too:
- the clock (`now`);
- generated keys (`autoId`, `eventId`);
- the unspecified iteration order of a Swift dictionary (`order`, with
  `Wire.Enumerates` saying it lists every key exactly once).

Timestamps are whole seconds since 1970-01-01.

Modules, one file each:
- `Wire` (wire.dfy): values and the shared decoding steps.
- `Seqs` and `Text` (seqs.dfy): filter, sort and case-insensitive search.
- `Models` (models.dfy): Models.swift.
- `Store` (store.dfy): the two services.
- `Tasks` (tasks.dfy): TasksViewModel.swift.
- `Calendar` (calendar.dfy): CalendarViewModel in CalendarView.swift.
- `News` (news.dfy): NewsFeedViewModel.swift.
- `Users` (users.dfy): UserService.swift.
- `Admin` (admin.dfy): AdminView.swift.
- `TaskEditor` (editor.dfy): TaskEditorView.swift.
- `Login` (login.dfy): ContentView.swift.

Screens whose fields change in place are classes: the view models, the
user service and the views with `@State`. Their methods state the whole
new state. The decoders, projections and gates are functions, each with
lemmas relating it to its partner: the encoder it inverts, the invariant it
keeps, or a specification predicate.

Malformed records are handled differently by path:
- One task or post that fails to decode aborts the whole load: the closure
  throws out of `compactMap` (Views/TasksViewModel.swift:89,
  Views/NewsFeedViewModel.swift:44). `Tasks.ParseTasks` and
  `News.ParsePosts` model the abort, and `Tasks.ParseTasksMeaning` and
  `News.ParsePostsMeaning` state it.
- The calendar and the profile reads drop a malformed record on its own.

## Model

| member | source | states |
|---|---|---|
| Wire.DecodeString | Views/TasksViewModel.swift:89 | a required string property decodes exactly when its key holds a string, and yields that string |
| Wire.DecodeOptionalString | Views/TasksViewModel.swift:89 | an optional string property is nil exactly when absent or null, and decoding fails only on a non-string value |
| Wire.DecodeDate | Views/TasksViewModel.swift:81-82 | a date property under `.secondsSince1970` decodes exactly when its key holds a number, and yields those seconds |
| Wire.DecodeStringArray | Models.swift:39 | a string-array property decodes exactly when its key holds an array of strings only |
| Wire.StringArrayRoundTrip | Models.swift:39 | an array of strings written to the wire reads back as the same sequence |
| Wire.CompactMap | Views/TasksViewModel.swift:84-92 | the throwing `compactMap` fails exactly when some child's closure throws; otherwise it holds exactly the kept records, each from some child, and no more of them than there are children |
| Store.Collection.Snapshot | Views/TasksViewModel.swift:79 | a path with no children reads as null, otherwise as the dictionary of its children |
| Store.Collection.Child | Services/UserService.swift:38 | a missing child reads as null, an existing one as its value |
| Store.Collection.SetValue | Views/TasksViewModel.swift:35 | a write replaces the child under the key, and a failed write changes nothing |
| Store.Collection.UpdateChildValues | Views/TasksViewModel.swift:49 | only the listed fields of the child are overwritten, its other fields stay, and a failure changes nothing |
| Store.Collection.RemoveValue | Views/TasksViewModel.swift:59 | exactly the child under the key is removed, and a failure changes nothing |
| Store.Auth.SignIn | ContentView.swift:54 | a successful sign-in makes its session the signed-in one |
| Store.Auth.SignOut | Services/UserService.swift:28 | a sign-out that succeeds leaves nobody signed in; one that throws reports its error and keeps the session |
| Store.Auth.DeleteCurrentUser | Views/AdminView.swift:75 | deleting `currentUser` removes the signed-in identity and signs it out; with nobody signed in nothing happens; a failure changes nothing |
| Store.Auth.DeleteAccount | Views/AdminView.swift:75 | an administrative deletion removes exactly the named identity and signs out only if it was the signed-in one |
| Store.Auth.CreateAccount | Views/AdminView.swift:179 | creating an identity adds it and signs in as it |
| Seqs.Filter | Views/TasksViewModel.swift:108 | `filter` keeps exactly the elements satisfying the test, each as often as before, in their order |
| Seqs.FilterAppend | Views/TasksViewModel.swift:108 | filtering distributes over concatenation |
| Seqs.FilterEmpty | Views/CalendarView.swift:106 | a filter is empty exactly when no element passes the test |
| Seqs.SortBy | Views/TasksViewModel.swift:121 | `sorted(by:)` on an integer key yields a permutation in non-decreasing key order |
| Text.LowerChar | Views/TasksViewModel.swift:109 | an upper-case Latin or Russian letter becomes a different character that is not upper case, and every other character is kept |
| Text.Lower | Views/TasksViewModel.swift:109 | case folding keeps the length, leaves no upper-case letter, keeps every other character in place, and folds each character on its own |
| Text.CaseInsensitiveContains | Views/TasksViewModel.swift:109 | an empty search text is never found, and a found text is no longer than the text searched |
| Text.ExactOccurrenceFound | Views/TasksViewModel.swift:109 | a non-empty text occurring with the same case is found |
| Text.LowerIdempotent | Views/TasksViewModel.swift:109 | folding twice is folding once |
| Text.SearchIgnoresCase | Views/TasksViewModel.swift:109-110 | a search matches exactly when the case-folded search text matches |
| Text.TextContainsItself | Views/AdminView.swift:20 | a non-empty text is found in itself, in any case |
| Models.ParseUserRole | Models.swift:14-18 | `UserRole(rawValue:)` returns the role with that raw value, or nil when no role has it |
| Models.UserRoleRawValueRoundTrip | Models.swift:14-18 | parsing a role's raw value gives the role back |
| Models.UserRoleDisplayNamesDistinct | Models.swift:19-25 | different roles have different display names |
| Models.HashDependsOnlyOnId | Models.swift:28-30 | users with equal ids hash alike whatever their other fields, and equal users hash alike |
| Models.ParseStatus | Models.swift:41-44 | `Status(rawValue:)` returns the status with that raw value, or nil when none has it |
| Models.StatusRawValueRoundTrip | Models.swift:41-44 | parsing a status's raw value gives the status back |
| Models.StatusDisplayNamesDistinct | Models.swift:46-52 | different statuses have different display names |
| Models.OverdueOnlyWhenActiveAndPast | Models.swift:55-57 | a task is overdue exactly when it is active and due strictly before now; completed and archived tasks never are |
| Tasks.DecodeStatus | Views/TasksViewModel.swift:89 | a stored status decodes exactly when it is a raw value of `Status`, to the status with that raw value |
| Tasks.DecodeTask | Views/TasksViewModel.swift:89 | a decoded task's fields are exactly the stored ones, and its id is nil exactly when the record has none |
| Tasks.EncodeTaskAsWritten | Views/TasksViewModel.swift:33 | as written, the due date is stored as seconds since 2001-01-01, and an id is stored exactly when the task has one |
| Tasks.EncodeTask | Views/TasksViewModel.swift:33 | as intended, the due date is stored as seconds since 1970-01-01, and an id is stored exactly when the task has one |
| Tasks.DecodeEncodeTask | Views/TasksViewModel.swift:81-82 | a task encoded with seconds since 1970 decodes back to itself |
| Tasks.AsWrittenDueDateShift | Views/TasksViewModel.swift:33 | as written, every task reads back due 978307200 seconds earlier than written, so never as itself |
| Tasks.AsWrittenTaskLooksOverdue | Views/TasksViewModel.swift:33 | as written, every active task due less than 978307200 seconds (31 years) after now reads back overdue, future due dates included |
| Tasks.ParsedIdsDistinct | Views/TasksViewModel.swift:90 | the parsed tasks carry pairwise distinct ids |
| Tasks.ParseTasks | Views/TasksViewModel.swift:78-93 | a snapshot that is not a dictionary reads as no tasks; otherwise the children go through the throwing `compactMap`, whose outcome `Tasks.ParseTasksMeaning` states |
| Tasks.ParseTasksMeaning | Views/TasksViewModel.swift:78-93 | `[]` for a non-dictionary snapshot; it throws exactly when some dictionary child fails to decode; otherwise every task is a stored record with its key as id, every dictionary child is present, and ids are distinct |
| Tasks.FilterTasks | Views/TasksViewModel.swift:104-122 | the list is a permutation of exactly the tasks passing the text and status filters, ordered by due date |
| Tasks.FilterTasksShowsAllWhenUnfiltered | Views/TasksViewModel.swift:107 | with empty text and `.all`, the list holds every task |
| Tasks.ListedTasksAreShown | Views/TasksViewModel.swift:107-119 | a listed task comes from the input, matches a non-empty search text, and passes the chosen status filter |
| Tasks.ToggledStatus | Views/TasksViewModel.swift:48 | the new status is completed exactly for an active task, and never archived |
| Tasks.ToggleTwice | Views/TasksViewModel.swift:48 | toggling twice restores the status exactly when it was not archived |
| Tasks.ToggleClearsOverdue | Views/TasksViewModel.swift:48 | an overdue task is not overdue once toggled |
| Tasks.DecodeAfterStatusUpdate | Views/TasksViewModel.swift:49 | overwriting the status field changes only the decoded task's status |
| Tasks.StoreError | Views/TasksViewModel.swift:36 | a completion reports an error exactly when the store does |
| Tasks.TasksViewModel.constructor | Views/TasksViewModel.swift:11-14 | the model starts with no tasks, an empty search, the `.all` filter and its projection in step |
| Tasks.TasksViewModel.SetSearchText | Views/TasksViewModel.swift:95-102 | a new search text recomputes `filteredTasks` as the projection of the task list |
| Tasks.TasksViewModel.SetSelectedFilter | Views/TasksViewModel.swift:95-102 | a new status filter recomputes `filteredTasks` as the projection of the task list |
| Tasks.TasksViewModel.OnTasksSnapshot | Views/TasksViewModel.swift:64-76 | a successful parse replaces `allTasks` and its projection; a failed one is printed and both lists stay |
| Tasks.TasksViewModel.AddTask | Views/TasksViewModel.swift:32-41 | as written, the task encoded with seconds since 2001-01-01 is written under the fresh key, and the completion receives the store's error |
| Tasks.TasksViewModel.AddTaskCorrected | Views/TasksViewModel.swift:32-41 | as intended, the task encoded with seconds since 1970-01-01 is written under the fresh key, and the completion receives the store's error |
| Tasks.TasksViewModel.ToggleTaskStatus | Views/TasksViewModel.swift:43-52 | a task without id is refused with no write; otherwise only the status field of its record is written, with the toggled status |
| Tasks.TasksViewModel.DeleteTask | Views/TasksViewModel.swift:54-62 | a task without id is refused with no write; otherwise exactly its record is removed |
| Tasks.StoredTaskIsParsed | Views/TasksViewModel.swift:84-92 | a dictionary child that decodes is in every successful parse, with its key as id |
| Tasks.AddedTaskIsParsed | Views/TasksViewModel.swift:33-35 | as written, an added task is in the next successful parse with its new key as id but due 978307200 seconds earlier |
| Tasks.AddedTaskIsParsedCorrected | Views/TasksViewModel.swift:33-35 | with the intended encoding, an added task is in the next successful parse exactly as added, with its new key as id |
| Calendar.StartOfDay | Views/CalendarView.swift:103-104 | the start of day is a midnight at or before the instant, less than a day before it |
| Calendar.StartOfDayIdempotent | Views/CalendarView.swift:104 | the start of a start of day is itself |
| Calendar.SameKeyIffSameDay | Views/CalendarView.swift:104 | two instants share a key exactly when they fall on the same day |
| Calendar.DecodeEvent | Views/CalendarView.swift:96-101 | a child yields an event exactly when it has a numeric `date`, a string `title` and a string `id`; the event's id is the payload's |
| Calendar.DecodeEventPayload | Views/CalendarView.swift:121-128 | the record `addEvent` writes decodes to the event it describes |
| Calendar.DecodedEventsHas | Views/CalendarView.swift:95-101 | every well-formed child contributes its event |
| Calendar.OnDayAppend | Views/CalendarView.swift:106-110 | appending an event adds it to its own day's events only |
| Calendar.GroupingStep | Views/CalendarView.swift:106-110 | appending an event to the bucket of its day keeps a grouping exact |
| Calendar.GroupingKeysAreDays | Views/CalendarView.swift:103-110 | every key of a grouping is a start of day, and no bucket is empty |
| Calendar.EventInOneBucket | Views/CalendarView.swift:103-110 | each grouped event is in the bucket of its day and in no other |
| Calendar.BucketSizesSum | Views/CalendarView.swift:106-110 | the bucket sizes, each day counted once, add up to the number of well-formed events |
| Calendar.AddToBucket | Views/CalendarView.swift:104-110 | one loop step appends the event to the bucket of its start of day, creating the bucket when missing, and leaves every other bucket |
| Calendar.GroupByDay | Views/CalendarView.swift:92-112 | the loop builds from an empty map exactly the grouping by day of the well-formed children, with start-of-day keys and no empty bucket |
| Calendar.ListedAsWritten | Views/CalendarView.swift:28 | as written, a list is shown exactly when the raw selected instant is a key, and it is that key's bucket |
| Calendar.Listed | Views/CalendarView.swift:28 | with the lookup corrected, a list is shown exactly when the selected instant's start of day is a key, and it is that day's bucket |
| Calendar.AsWrittenListMissesNonMidnight | Views/CalendarView.swift:28 | as written, a selected instant other than a midnight finds no events |
| Calendar.AsWrittenListHidesAddedEvent | Views/CalendarView.swift:28 | an event added at 10:00 is not listed as written for that selected date, and is listed by the corrected lookup |
| Calendar.AddedEventIsListed | Views/CalendarView.swift:121-128 | with the corrected lookup, an event added for the selected date is listed once the next snapshot is grouped |
| Calendar.CalendarViewModel.constructor | Views/CalendarView.swift:82-83 | the selected date starts at now and there are no events |
| Calendar.CalendarViewModel.Displayed | Views/CalendarView.swift:28 | with the lookup corrected, the list shown is the bucket of the selected instant's start of day, and nothing when that day has no bucket |
| Calendar.CalendarViewModel.SelectDate | Views/CalendarView.swift:21 | the date picker sets the selected date |
| Calendar.CalendarViewModel.OnEventsSnapshot | Views/CalendarView.swift:89-118 | every snapshot replaces `events` by the grouping of that snapshot alone |
| Calendar.CalendarViewModel.AddEvent | Views/CalendarView.swift:121-130 | `{id, title, date: selectedDate}` is written under the key equal to that id |
| Calendar.CalendarViewModel.DeleteEvent | Views/CalendarView.swift:132-134 | exactly the child keyed by the event's id is removed |
| News.DecodePost | Views/NewsFeedViewModel.swift:44 | a decoded post's fields are exactly the stored ones, and its id is nil exactly when the record has none |
| News.DecodePostPayload | Views/NewsFeedViewModel.swift:61-66 | the record `createPost` writes decodes to the post it describes |
| News.MappedPostsThrow | Views/NewsFeedViewModel.swift:38-47 | the closure map throws exactly when a listable child fails to decode, whatever the visiting order |
| News.MappedPosts | Views/NewsFeedViewModel.swift:38-47 | a closure map that does not throw holds exactly the listable children's posts, each under its key |
| News.NewestFirst | Views/NewsFeedViewModel.swift:48 | the sort is a permutation in non-increasing date order |
| News.MappedPostIdsDistinct | Views/NewsFeedViewModel.swift:38-47 | whatever the visiting order, no two mapped posts share an id, so each listable child contributes one post |
| News.DistinctIdsPermutation | Views/NewsFeedViewModel.swift:48 | sorting keeps the posts' ids distinct |
| News.ParsePosts | Views/NewsFeedViewModel.swift:30-48 | a snapshot that is not a dictionary reads as no posts; otherwise the mapped children sorted newest first, whose outcome `News.ParsePostsMeaning` states |
| News.ParsePostsMeaning | Views/NewsFeedViewModel.swift:30-48 | `[]` for a non-dictionary snapshot; it throws exactly when a listable child fails to decode; otherwise exactly the listable children's posts, newest first, each with its key as id, one per child, with distinct ids |
| News.StoredPostIsListed | Views/NewsFeedViewModel.swift:38-48 | a listable child that decodes is in every successful load, under its key |
| News.AuthorName | Views/NewsFeedViewModel.swift:56 | the author name is the email's prefix up to, not including, its first `@` |
| News.AuthorNameOfAddress | Views/NewsFeedViewModel.swift:56 | the author name of `name@domain` is `name` |
| News.NewsFeedViewModel.constructor | Views/NewsFeedViewModel.swift:11-13 | the feed starts with no posts, not loading, with no error |
| News.NewsFeedViewModel.FetchPosts | Views/NewsFeedViewModel.swift:18-19 | a fetch starts loading |
| News.NewsFeedViewModel.HandlePostsSnapshot | Views/NewsFeedViewModel.swift:27-52 | loading ends on every path; a successful load replaces `posts`; a failed one sets the error message and keeps `posts` |
| News.NewsFeedViewModel.CreatePost | Views/NewsFeedViewModel.swift:54-75 | with no uid or email nothing is written and the error is shown; otherwise the post signed with the email name and uid is written under a fresh key, and a success starts a fetch while a failure is shown |
| News.NewsFeedViewModel.DeletePost | Views/NewsFeedViewModel.swift:77-80 | a post without id is left alone; otherwise exactly its record is removed |
| News.CreatedPostIsListed | Views/NewsFeedViewModel.swift:61-73 | a created post is in the next successful load, under its key, signed with the email name and the author's uid |
| News.OthersPostsNeedAdmin | Views/NewsFeedView.swift:36 | only the author or an administrator may delete a post |
| Users.DecodeUser | Services/UserService.swift:39-54 | a profile reads exactly when it has string name, email and role and the role parses; the user's id is the requested one |
| Users.DecodeUserPayload | Services/UserService.swift:49-54 | a stored profile reads back as its user, whatever `id` field it holds |
| Users.UnknownRoleIsUnreadable | Services/UserService.swift:44 | a profile with an unknown role cannot be read |
| Users.UserService.constructor | Services/UserService.swift:11 | the service starts with no cached profile |
| Users.UserService.FetchUser | Services/UserService.swift:37-61 | success exactly for a readable profile, which becomes `currentUser` with the requested id; on failure `currentUser` stays |
| Users.UserService.AuthStateDidChange | Services/UserService.swift:20-35 | nobody signed in clears `currentUser`; a signed-in uid with a readable profile caches it; an unreadable profile leaves `currentUser` and signs out, unless the sign-out throws, which `try?` ignores |
| Users.UserService.SignInWithUnreadableProfile | Services/UserService.swift:24-33 | a sign-in with an unreadable profile ends signed out with no cached user once the sign-out event is handled; if the sign-out throws, the session and the cached user stay |
| Users.UserService.Logout | Services/UserService.swift:63-69 | a logout that succeeds signs out; a thrown error is printed and the session stays |
| Admin.FilteredUsers | Views/AdminView.swift:15-24 | all users in order for an empty search; otherwise the order-preserving subsequence of exactly the users whose name or email matches |
| Admin.UserFoundByName | Views/AdminView.swift:19-22 | a user is found by their full name typed in either case |
| Admin.OwnRowIsProtected | Views/AdminView.swift:32 | deletion is offered exactly on rows whose role picker is enabled, and never on the signed-in user's own row |
| Admin.AsWrittenDeleteRemovesAdmin | Views/AdminView.swift:75 | as written, deleting another user removes the administrator's identity and keeps the target's |
| Admin.DeleteRemovesTarget | Views/AdminView.swift:75 | as intended, the target's identity is removed and every other one stays |
| Admin.AdminView.constructor | Views/AdminView.swift:12-13 | the screen starts with an empty search and no error |
| Admin.AdminView.DeleteUser | Views/AdminView.swift:68-81 | the profile is removed first; a failure there shows an error and skips the identity deletion; then the signed-in identity is deleted |
| Admin.AdminView.DeleteUserCorrected | Views/AdminView.swift:68-81 | same sequence, deleting the target's identity and keeping the administrator signed in |
| Admin.CreateEnabled | Views/AdminView.swift:172 | Create is enabled exactly when email, password and name are all non-empty |
| Admin.AddUserView.constructor | Views/AdminView.swift:131-135 | the form starts empty, with the employee role, no error and the sheet open |
| Admin.AddUserView.CreateUser | Views/AdminView.swift:178-202 | an auth error writes no profile; a new identity's profile is saved under its uid with that uid as id, and the sheet closes only after the save succeeds |
| Admin.CreatedProfileIsFetched | Views/AdminView.swift:187-194 | the profile saved for a new identity reads back as the new user |
| TaskEditor.Toggled | Views/TaskEditorView.swift:88-94 | the toggled id flips membership and no other id changes |
| TaskEditor.ToggleTwiceRestores | Views/TaskEditorView.swift:88-94 | toggling the same id twice restores the selection |
| TaskEditor.AssignableUsers | Views/TaskEditorView.swift:16-19 | nobody without a session; otherwise exactly the other users, in order |
| TaskEditor.SelfNotAssignable | Views/TaskEditorView.swift:18 | the signed-in user is never assignable |
| TaskEditor.ArrayOfSet | Views/TaskEditorView.swift:103 | `Array(set)` holds each element of the set exactly once |
| TaskEditor.SaveEnabled | Views/TaskEditorView.swift:73 | Save is enabled exactly when the title is non-empty |
| TaskEditor.TaskEditorView.constructor | Views/TaskEditorView.swift:10-14 | the form starts empty, due now, active, with no one selected |
| TaskEditor.TaskEditorView.OnAppear | Views/TaskEditorView.swift:76-84 | an edited task's fields are loaded; for a new task the defaults stay |
| TaskEditor.TaskEditorView.ToggleUserSelection | Views/TaskEditorView.swift:88-94 | the selection becomes the toggled selection |
| TaskEditor.TaskEditorView.MakeTask | Views/TaskEditorView.swift:96-104 | the saved task keeps the edited task's id, copies the form's fields, and lists exactly the selected ids once each |
| TaskEditor.TaskEditorView.SaveTapped | Views/TaskEditorView.swift:69-72 | saving hands over that task and dismisses the sheet unconditionally |
| TaskEditor.TaskEditorView.ReopenAndSave | Views/TaskEditorView.swift:76-104 | reopening and saving an existing task gives it back up to the order and repetition of its assignees |
| Login.FieldsProblem | ContentView.swift:78-88 | the fields pass exactly when both are filled and the email has an `@`; missing fields are reported before a malformed email |
| Login.RootScreen | ContentView.swift:12-18 | the main tabs show exactly when a profile is loaded |
| Login.LoginView.constructor | ContentView.swift:6-9 | the form starts empty, not loading, with no error |
| Login.LoginView.ValidateFields | ContentView.swift:78-88 | a rejected form shows why; an accepted one leaves the message alone |
| Login.LoginView.LoginUser | ContentView.swift:49-53 | invalid fields start nothing and leave loading alone; valid ones start loading and clear the message before the sign-in |
| Login.LoginView.SignInCompleted | ContentView.swift:54-76 | loading ends; an error or a missing user is shown; an unreadable profile is reported and signs out, unless the sign-out throws, which `try?` ignores; a readable one is cached |

## Left out

- Asynchrony: listeners, completions and `DispatchQueue.main.async` are synchronous steps. A read is a method call that receives the path's current contents. Callbacks on released views (`[weak self]`) are not modelled.
- The auth-state listener also fires when `loginUser` signs in. That second, concurrent profile fetch is not modelled; `Login.LoginView.SignInCompleted` covers only `loginUser`'s own fetch.
- Combine wiring: the binding at Views/TasksViewModel.swift:95-102 is modelled only by its effect, the class invariant `TasksViewModel.Valid()`. That invariant carries a ghost clock reading for `isOverdue`.
- Dictionary iteration order is a parameter. Nothing is claimed about the order of tasks before sorting or of events inside a calendar bucket beyond visiting order. `queryOrdered(byChild:)` has no effect once the snapshot is read as a dictionary.
- Tasks.ParseTasksMeaning: states which tasks the parse holds and that their ids are distinct, not their order, which follows the dictionary's unspecified order.
- News.ParsePostsMeaning: states which posts the load holds and their date order, not how posts with equal dates are ordered, which Swift leaves open.
- Tasks.FilterTasks: does not state how tasks with equal due dates are ordered, since `sorted(by:)` is not stable.
- Floating point: `TimeInterval` and `Date` are whole seconds. `as? TimeInterval` accepts numbers only; the NSNumber bridging of booleans is not modelled.
- `Calendar.current.startOfDay` is fixed to UTC, and time zones are not modelled.
- Case folding: the model folds case only for the Latin and Russian alphabets. Foundation's other Unicode case mappings and the diacritic and locale rules of `localizedCaseInsensitiveContains` are not modelled.
- JSON serialization: `JSONSerialization` never fails on a snapshot value. `addTask`'s encoding-error branch (Views/TasksViewModel.swift:38-40) cannot be reached for a task and is not modelled.
- Firebase does not store empty arrays, so a task saved with no assignees would come back without `assignedUserIds`. The store here keeps empty arrays.
- Error texts: a store or auth error is passed as its localized description. A decoding error's description is Foundation's English wording.
- `UserService` members that Services/UserService.swift does not define are external:
  - `saveUser` is taken to write the profile `{name, email, role}` under the user's id.
  - `deleteUser(userId:)` is taken to remove the profile under that id.
  - `isCurrentUserAdmin` is a parameter.
  - `users`, `fetchAllUsers` and `updateUserRole` (the role picker's write) are not modelled.
- The permission gate at Views/TasksView.swift:52 and the other layout views (TasksView, NewsFeedView beyond its delete gate, ProfileView, MainTabView, AssistantView, the app delegate and app entry) are user interface with no rules to verify.
- Models/User.swift is an unreferenced duplicate of `AppUser` and is not part of this model.
- `print` in the task listener is the `printed` result of `OnTasksSnapshot`; `print` in the auth listener when the profile fetch fails (Services/UserService.swift:27) is not modelled.

## Findings

| source | as written | input that shows it | evidently intended | confidence | as-written member | corrected member |
|---|---|---|---|---|---|---|
| Views/TasksViewModel.swift:33 | `JSONEncoder()` keeps its default date strategy, which writes seconds since 2001-01-01, while `parseTasks` reads seconds since 1970-01-01 | any task, e.g. one due at 1700000000 is read back due at 721692800 (in 1992), so an active task shows as overdue | encode with `.secondsSince1970`, as the decoder reads | high; not executed | Tasks.AsWrittenDueDateShift | Tasks.DecodeEncodeTask |
| Views/AdminView.swift:75 | after removing the profile of `userId`, `Auth.auth().currentUser?.delete` deletes the signed-in administrator's identity | administrator `a` deletes user `b`: `b`'s identity stays, `a`'s is gone and `a` is signed out | delete the identity of `userId` | high; not executed | Admin.AsWrittenDeleteRemovesAdmin | Admin.DeleteRemovesTarget |
| Views/CalendarView.swift:28 | the list looks up `events[selectedDate]` with the raw selected instant, while the keys are starts of day | an event added at 36000 (10:00 on 1970-01-01) with that date selected: nothing is listed | look up `events[startOfDay(selectedDate)]` | high; not executed | Calendar.ListedAsWritten, Calendar.AsWrittenListHidesAddedEvent | Calendar.Listed, Calendar.AddedEventIsListed |
