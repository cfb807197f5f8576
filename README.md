# Mini project manager: ownership-scoped resources, modelled in Dafny

This project models the core of a small project manager in Dafny.

On the server, users own projects and projects own tasks. Every handler resolves the record it is asked about and checks ownership first:

- A project is checked against its own `user` field.
- A task is checked through its parent project.
- Only after the checks pass does a handler read, write or delete anything.

The server model is a document store class (`Database.Db`) holding three maps: users, projects and tasks, each keyed by ObjectId. The controllers are methods over that store. They return an HTTP status code, a message and an optional body, and their `modifies` clauses name only the collection they may write.

The Mongoose schemas become validation functions. They are applied where the code calls `save()`:

- `findByIdAndUpdate` drops undefined fields and applies the `trim` setter, but runs no validator.
- A `populate` of a project that no longer exists yields `null`, so reading its owner throws and the handler answers 500.
- An id that does not cast to an ObjectId (24 hexadecimal digits, in either case) makes `findById` throw a cast error. An id that casts is looked up by its lower-case spelling, the form in which ObjectIds are stored and printed, so both spellings of a stored id find the same document. Each handler's catch reports it as 400, except `createTask`, whose catch reports 500.

The JWT helper is modelled as well. Header parsing is modelled as string logic over a JavaScript `split`. Signing and verification are functions passed in.

On the client, the model covers:

- the task page's list logic: filter, due-date sort with undated tasks last, the three-state status toggle, and the prepend/replace/remove list updates;
- the task, project and auth Redux slices, as classes whose methods are the reducers;
- the dashboard's creation-date sort and logout.

Copy-then-sort (`[...s].sort(cmp)`) is one verified insertion sort on a fresh array. It is specified by its result: ordered by the comparator, and a permutation of the input. The browser's local storage is a two-slot class holding the token and the user.

Caller ids, fresh ObjectIds and the clock are parameters. So are the password hasher and comparer and the token signer and verifier.

The code differs from what the rest of the code evidently intends in three places. The model follows the code in each:

- Deleting a project does not delete its tasks. Those tasks then answer 500 on every task handler (`Database.Db.TaskAccess`).
- Saving a task whose status is "done" is refused by the schema, which only knows "completed" (see Findings).
- Acting on someone else's project or task answers 401 with a "Not authorized …" message. It never answers 403.

The dashboard's logout removes only the stored token and leaves the stored user (`Dashboard.DashboardPage.HandleLogout`). The store's logout removes both (`AuthSlice.AuthState.Logout`).

## Model

| member | source | states |
|---|---|---|
| Common.OrElse | client/src/redux/slices/authSlice.js:24 | `s \|\| fallback` for a string: the string when it is non-empty, the fallback when it is absent or empty |
| Strings.Trim | server/src/models/task.model.js:5-9 | the trimmed title is the infix of the input that starts after its leading white space, and everything before and after it is white space; neither end is white space; the result is empty exactly when the input is all white space |
| Strings.TrimIdempotent | server/src/models/project.model.js:5-9 | trimming an already trimmed title changes nothing |
| Strings.LeadingSpace | server/src/models/task.model.js:8 | counts exactly the leading white space: all counted characters are white space and the next one is not |
| Strings.TrailingStart | server/src/models/task.model.js:8 | finds exactly where the trailing white space starts: everything after it is white space and the character before it is not |
| Strings.Split | server/src/config/libraries/jwt.js:28 | `split(sep)` gives at least one field and no field contains the separator |
| Strings.JoinSplit | server/src/config/libraries/jwt.js:28 | split loses nothing: joining the fields with the separator gives back the input |
| Strings.FirstField | server/src/config/libraries/jwt.js:28 | the prefix of the input before the first separator, which it does not contain |
| Strings.SplitFirst | server/src/config/libraries/jwt.js:28 | the first field of a split is the text before the first separator |
| Strings.SplitAfterWord | server/src/config/libraries/jwt.js:28 | a separator-free word followed by the separator splits off as its own first field |
| Jwt.GenerateToken | server/src/config/libraries/jwt.js:4-12 | signs `{id}` with the fixed 7-day expiry; every signing failure becomes the single error "Token creation failed" |
| Jwt.VerifyToken | server/src/config/libraries/jwt.js:14-22 | the decoded claims when verification succeeds, otherwise the single error "Error verifying token" |
| Jwt.VerifyFailuresIndistinguishable | server/src/config/libraries/jwt.js:14-21 | an expired, malformed or forged token gives the same error, so the kind of failure is not distinguished |
| Jwt.ExtractTokenFromHeader | server/src/config/libraries/jwt.js:24-29 | a token is found exactly when the header is present and starts with the case-sensitive "Bearer " (a missing or empty header gives none); the token found never contains a space |
| Jwt.BearerWords | server/src/config/libraries/jwt.js:28 | a header with the prefix splits into "Bearer" followed by the fields of the rest |
| Jwt.ExtractTakesFirstField | server/src/config/libraries/jwt.js:28 | the token is the text after the prefix up to the next space, so "Bearer a b" gives "a" and "Bearer " gives "" |
| Jwt.ExtractRoundTrip | server/src/config/libraries/jwt.js:24-29 | for any token without spaces, the header "Bearer " + token gives the token back |
| Jwt.FirstFieldOfWord | server/src/config/libraries/jwt.js:28 | a word without spaces is its own first field |
| TaskModel.DocumentErrors | server/src/models/task.model.js:5-25 | a document saves exactly when it has a title, a status from the enumeration and a project; a missing title, a status outside the enumeration and a missing project are each reported exactly when they occur |
| TaskModel.NewTask | server/src/models/task.model.js:1-34 | `new Task(f).save()` succeeds exactly when the trimmed title is non-empty, the status (default "todo") is in the enumeration and the project is given; the stored document has the trimmed title, that status, the given project, description and due date, and both timestamps set to the save time; a failure reports at least one error |
| TaskModel.DoneRejectedBySchema | server/src/models/task.model.js:13-17 | "done" is a status the API uses, and the schema's enumeration refuses it on save |
| TaskModel.IntendedStatusesAcceptApi | server/src/models/task.model.js:13-17 | with the intended enumeration, a task with a title and a project saves with every status the API accepts |
| TaskModel.NewTaskDefaultsToTodo | server/src/models/task.model.js:16 | a task created without a status has status "todo" |
| TaskModel.NewTaskTitleTrimmed | server/src/models/task.model.js:5-9 | a stored title is non-empty and has no white space at either end |
| ProjectModel.NewProject | server/src/models/project.model.js:1-26 | `new Project(f).save()` succeeds exactly when the trimmed title is non-empty and the owner is given; the stored project has the trimmed title, the optional description, that owner, and creation and update times set to the save time; each failure names its missing field |
| ProjectModel.BlankTitleRefused | server/src/models/project.model.js:5-9 | a title of white space only is refused as missing |
| Database.IsObjectId | server/src/controllers/project.controller.js:75-80 | the ids `findById` can cast (any other throws the ObjectId cast error): 24 hexadecimal digits in either case, exactly the strings whose lower-case spelling is 24 lower-case hexadecimal digits |
| Database.CastIgnoresCase | server/src/controllers/project.controller.js:75-80 | two spellings of the same lower-case id both cast or both fail |
| Database.CanonicalIdempotent | server/src/controllers/task.controller.js:214 | spelling an already cast id in lower case again changes nothing, so a stored reference keeps its form |
| Database.Db.constructor | server/src/models/task.model.js:13-17 | an empty store whose task schema validates against the given status enumeration |
| Database.Db.FindProject | server/src/controllers/project.controller.js:50 | `findById`: a cast error exactly for ids that are not ObjectIds, missing exactly when no project is stored under the id's lower-case spelling, otherwise that stored project |
| Database.Db.FindTask | server/src/controllers/task.controller.js:127 | `findById(id).populate("project")`: cast error, missing, or the task stored under the id's lower-case spelling, with its project present exactly when that project still exists |
| Database.Db.SpellingsFindSameDocument | server/src/controllers/project.controller.js:50 | two spellings of one id find the same project and the same task, and both ownership checks settle on the same status for them |
| Database.Db.ProjectAccess | server/src/controllers/project.controller.js:48-87 | the ownership check on a project settles on 400 (bad id), 404 (missing), 401 (someone else's) or 200 (the caller's), each stated as an if-and-only-if |
| Database.Db.TaskAccess | server/src/controllers/task.controller.js:125-164 | the ownership check on a task through its parent project settles on 400, 404, 500 (parent deleted), 401 or 200 (the caller owns the parent), each stated as an if-and-only-if |
| ProjectController.ApplyProjectUpdate | server/src/controllers/project.controller.js:111-116 | an update changes only the title (trimmed, when given), the description (when given) and the update time; the owner and the creation time stay the same |
| ProjectController.CreateProject | server/src/controllers/project.controller.js:3-28 | the owner of a created project is always the caller, never a request field; 201 stores exactly that one new project; a title that is missing or blank after trimming gives 500 and stores nothing |
| ProjectController.GetProjects | server/src/controllers/project.controller.js:30-46 | the reply lists exactly the projects whose owner is the caller, unchanged, and the count equals their number |
| ProjectController.GetProjectById | server/src/controllers/project.controller.js:48-87 | the status is the ownership check's outcome (400/404/401/200, all distinct), each with its own message; 200 carries the stored project |
| ProjectController.UpdateProject | server/src/controllers/project.controller.js:89-139 | every refusal leaves the projects unchanged; on success only that project changes, by `ApplyProjectUpdate`, and it still belongs to the caller |
| ProjectController.DeleteProject | server/src/controllers/project.controller.js:141-184 | only after the ownership check is that one project removed; every refusal removes nothing; tasks are never touched, including the deleted project's own tasks |
| TaskController.BuildQuery | server/src/controllers/task.controller.js:72-89 | the query always names the project; a status filter exactly when a non-empty status is given; for a due day, the window from its midnight to 23:59:59.999 |
| TaskController.Matches | server/src/controllers/task.controller.js:100 | `Task.find(query)`: a returned task references the query's project, both ids compared in their lower-case spelling; a due window never matches a task without a due date, and a status condition never matches a task with another status |
| TaskController.QueryMeaning | server/src/controllers/task.controller.js:72-89 | a task matches exactly when it is in the project, has the given status if any, and is due at or after the day's midnight and before the next midnight if a day is given |
| TaskController.BuildSort | server/src/controllers/task.controller.js:91-98 | with `sortBy`, that field, descending exactly when `sortOrder` is "desc" and ascending otherwise; without it, `createdAt` descending |
| TaskController.ApplyTaskUpdate | server/src/controllers/task.controller.js:206-217 | given fields replace the stored ones (title trimmed, status unvalidated) and absent ones are kept; the project is the one given; the creation time stays |
| TaskController.CreateTask | server/src/controllers/task.controller.js:4-48 | no project id or a missing project gives 404 and someone else's project gives 401, each writing no task; an id that does not cast gives 500; for the owner, a document the schema refuses gives 500 and writes nothing; 201 stores exactly the validated document built from the request (trimmed title, description, due date, the status given or "todo", the cast project id, both timestamps `now`) and returns it |
| TaskController.RespelledOwnProjectPassesMoveCheck | server/src/controllers/task.controller.js:189-203 | naming the task's own project in another spelling counts as a move, but the destination check finds that same project and lets the update through |
| TaskController.GetTasksByProject | server/src/controllers/task.controller.js:50-123 | the status is the ownership check on the project; on 200 the reply holds exactly the stored tasks that match the built query, all in that project, with their count and the built sort |
| TaskController.GetTaskById | server/src/controllers/task.controller.js:125-164 | the status is the ownership check through the parent project; 200 carries the stored task with its parent project populated, a project the caller owns |
| TaskController.UpdateTask | server/src/controllers/task.controller.js:166-240 | a move to a missing (404) or foreign (401) project is refused after the task's own check and leaves every task unchanged; on success only that task changes and its new project is one the caller owns |
| TaskController.UpdateTaskStatus | server/src/controllers/task.controller.js:242-297 | a missing status or one outside todo/in-progress/done gives 400 before any lookup, with nothing changed; after the ownership check only that task's status changes, and only if the whole document passes the schema; the update time is refreshed only when the status actually changes; 200 carries the saved task with its parent project populated; otherwise 500 and nothing is written |
| TaskController.DeleteTask | server/src/controllers/task.controller.js:299-342 | only after the ownership check is that one task removed; every refusal removes nothing |
| AuthController.UserWithEmail | server/src/controllers/auth.controller.js:50 | with unique emails, `findOne({email})` names the one user with that email |
| AuthController.Register | server/src/controllers/auth.controller.js:5-45 | a taken email gives 400 "User already exists" and leaves users unchanged; a hashing failure or a signing failure gives 500 "Error registering user" and stores nothing; 201 stores the hash of the password, never the plaintext, issues the token for the new id, and replies with id, name and email only; unique emails stay unique |
| AuthController.Login | server/src/controllers/auth.controller.js:47-85 | an unknown email gives 400 "User Email does not exist"; a comparison that does not match gives a different 400 "Password is incorrect"; a comparison that throws (a missing password, say) or a signing failure gives 500 "Error logging in user"; 200 carries a token for that user's id; users are never written |
| AuthController.RegisteredUserCanLogIn | server/src/controllers/auth.controller.js:18-30 | right after registration, login's lookup finds the new user, and its password check passes whenever hashing succeeded and the comparer accepts a password against its own hash |
| ListOps.Filter | client/src/pages/Tasks.jsx:248 | `filter` keeps exactly the elements that pass, and no others |
| ListOps.FilterAppend | client/src/pages/Tasks.jsx:248 | filtering distributes over concatenation, so survivors keep their relative order |
| ListOps.FilterCounts | client/src/redux/slices/taskSlice.js:144 | each passing element keeps its number of occurrences and each failing one disappears |
| ListOps.FilterKeepsAll | client/src/redux/slices/projectSlice.js:117-119 | a filter that every element passes returns the list unchanged |
| ListOps.FilterKeepsUniqueKeys | client/src/redux/slices/taskSlice.js:144 | removing elements never makes two ids equal |
| ListOps.MapWhere | client/src/pages/Tasks.jsx:159-162 | `map(x => x._id === id ? f(x) : x)`: the elements with that id become their image, every other element is unchanged, and the length is kept |
| ListOps.MapWhereKeepsKeys | client/src/pages/Tasks.jsx:211-214 | a map that keeps the id of the elements it changes keeps every id in place |
| ListOps.FindIndex | client/src/redux/slices/taskSlice.js:126-128 | `findIndex`: -1 exactly when no element has the id, otherwise the first position that has it |
| ListOps.UpdateFirst | client/src/redux/slices/taskSlice.js:125-133 | only the first element with the id changes; the list is unchanged when no element has it |
| ListOps.UpdateFirstIsMapWhere | client/src/redux/slices/taskSlice.js:125-142 | while ids are unique, updating the first match and updating every match give the same list |
| Sorting.SortedCopy | client/src/pages/Tasks.jsx:326-345 | `[...s].sort(cmp)` for a comparator that is a total preorder: the result is ordered by it and is a permutation of the input |
| Sorting.SinkStep | client/src/pages/Tasks.jsx:336 | one insertion step: swapping the out-of-place element with its left neighbour keeps the rest of the prefix sorted |
| Sorting.SinkDone | client/src/pages/Tasks.jsx:336 | once the inserted element may follow its left neighbour, the prefix is sorted |
| Sorting.SinkStart | client/src/pages/Tasks.jsx:336 | a sorted prefix plus the next element is the starting state of an insertion |
| Sorting.SwapKeepsElements | client/src/pages/Tasks.jsx:336 | swapping two positions keeps the same elements |
| ClientModel.LocalStorage.constructor | client/src/redux/slices/authSlice.js:6-7 | storage holds the given token and user |
| ClientModel.Settle | client/src/redux/slices/authSlice.js:12-30 | a thunk fulfils exactly when the reply succeeds, with its payload; otherwise it is rejected with the server's or the error's message when non-empty, or the thunk's own default |
| ClientModel.CreatedOrderIsTotalPreorder | client/src/pages/Dashboard.jsx:53-59 | both creation-time comparators are total preorders, so sorting by them is well defined |
| ClientModel.SortByCreatedAt | client/src/pages/Dashboard.jsx:50-60 | a copy of the same projects ordered by createdAt: non-increasing for "newest", non-decreasing for any other order |
| TasksPage.NextStatus | client/src/pages/Tasks.jsx:180-192 | the next status is always one of todo/in-progress/done, differs from a known current status, and is "todo" for an unknown one |
| TasksPage.NextStatusFollowsList | client/src/pages/Tasks.jsx:180-192 | a click moves todo to in-progress, in-progress to done and done back to todo |
| TasksPage.NextStatusCycles | client/src/pages/Tasks.jsx:180-192 | three toggles bring a known status back to where it started |
| TasksPage.StatusText | client/src/pages/Tasks.jsx:300-311 | an unknown status is shown as it is |
| TasksPage.StatusColor | client/src/pages/Tasks.jsx:286-297 | every unknown status gets the grey badge |
| TasksPage.StatusPresentationDistinct | client/src/pages/Tasks.jsx:286-311 | the three known statuses have pairwise different labels and colours |
| TasksPage.FilterByStatus | client/src/pages/Tasks.jsx:329-333 | "all" keeps the list as it is; any other filter keeps exactly the tasks with that status, each as often as it occurred |
| TasksPage.DueOrderIsTotalPreorder | client/src/pages/Tasks.jsx:336-345 | the due-date order (undated last, then by date in the chosen direction) is a total preorder |
| TasksPage.Page.constructor | client/src/pages/Tasks.jsx:10-18 | the page starts with no tasks, ascending order, filter "all", nothing selected and both forms closed |
| TasksPage.Page.LoadTasks | client/src/pages/Tasks.jsx:68-70 | a successful fetch replaces the list |
| TasksPage.Page.HandleTaskSubmit | client/src/pages/Tasks.jsx:106-131 | a created task goes in front of the others and the form closes; a failed creation changes nothing |
| TasksPage.Page.HandleUpdateTask | client/src/pages/Tasks.jsx:94-97 | opening the update form selects the task |
| TasksPage.Page.HandleTaskUpdate | client/src/pages/Tasks.jsx:134-171 | without a selection, or on failure, nothing changes; on success the tasks with the selected id become the server's version, the rest stay, and the form closes |
| TasksPage.Page.HandleToggleStatus | client/src/pages/Tasks.jsx:174-221 | the requested status is the next status; on success only the toggled tasks' status changes and every other task is identical |
| TasksPage.Page.HandleDeleteTask | client/src/pages/Tasks.jsx:224-255 | a confirmed, successful delete removes exactly the tasks with that id and keeps the order of the rest; otherwise nothing changes |
| TasksPage.Page.HandleSortByDueDate | client/src/pages/Tasks.jsx:314-317 | the order flips between "asc" and "desc" |
| TasksPage.Page.HandleFilterByStatus | client/src/pages/Tasks.jsx:320-322 | the filter becomes the chosen value |
| TasksPage.Page.GetFilteredAndSortedTasks | client/src/pages/Tasks.jsx:325-348 | the view is a permutation of the filtered tasks; every dated task precedes every undated one; dates are non-decreasing for "asc" and non-increasing otherwise; the page's own list is not reordered |
| TaskSlice.TaskState.constructor | client/src/redux/slices/taskSlice.js:4-9 | no tasks, not loading, filter "all", order "asc" |
| TaskSlice.TaskState.SetStatusFilter | client/src/redux/slices/taskSlice.js:105-107 | sets the filter and nothing else |
| TaskSlice.TaskState.SetSortOrder | client/src/redux/slices/taskSlice.js:108-110 | sets the order and nothing else |
| TaskSlice.TaskState.ClearTasks | client/src/redux/slices/taskSlice.js:111-113 | the list becomes empty |
| TaskSlice.TaskState.FetchTasksFulfilled | client/src/redux/slices/taskSlice.js:117-120 | the list becomes the payload and loading is false |
| TaskSlice.TaskState.CreateTaskFulfilled | client/src/redux/slices/taskSlice.js:121-124 | the length grows by one, the payload is first and the old list follows unchanged |
| TaskSlice.TaskState.UpdateTaskFulfilled | client/src/redux/slices/taskSlice.js:125-133 | the first task with the payload's id becomes the payload; with no match the list is unchanged |
| TaskSlice.TaskState.UpdateTaskStatusFulfilled | client/src/redux/slices/taskSlice.js:134-142 | only the status field of the first matching task changes |
| TaskSlice.TaskState.DeleteTaskFulfilled | client/src/redux/slices/taskSlice.js:143-146 | every task with that id is removed and the rest keep their order |
| TaskSlice.DeleteRemovesExactlyThatId | client/src/redux/slices/taskSlice.js:143-146 | after the delete no task has that id, and every other task keeps its number of occurrences |
| TaskSlice.StoreAndPageUpdatesAgree | client/src/redux/slices/taskSlice.js:125-146 | while ids are unique, the store's first-match updates equal the page's map updates, and update and delete keep ids unique |
| ProjectSlice.ProjectState.constructor | client/src/redux/slices/projectSlice.js:4-8 | no projects, none current, not loading |
| ProjectSlice.ProjectState.SortProjects | client/src/redux/slices/projectSlice.js:86-97 | the same projects, createdAt non-increasing for "newest" and non-decreasing otherwise |
| ProjectSlice.ProjectState.ClearCurrentProject | client/src/redux/slices/projectSlice.js:98-100 | no current project; the list is untouched |
| ProjectSlice.ProjectState.FetchProjectsFulfilled | client/src/redux/slices/projectSlice.js:104-107 | the list becomes the payload |
| ProjectSlice.ProjectState.FetchProjectByIdFulfilled | client/src/redux/slices/projectSlice.js:108-111 | the current project becomes the payload; the list is untouched |
| ProjectSlice.ProjectState.CreateProjectFulfilled | client/src/redux/slices/projectSlice.js:112-115 | the payload is prepended to the unchanged old list |
| ProjectSlice.ProjectState.DeleteProjectFulfilled | client/src/redux/slices/projectSlice.js:116-121 | the projects with that id are removed and the rest keep their order |
| ProjectSlice.DeleteRemovesExactlyThatProject | client/src/redux/slices/projectSlice.js:116-121 | after the delete no project has that id, and every other project keeps its number of occurrences |
| ProjectSlice.DeleteOfAbsentIdIsNoOp | client/src/redux/slices/projectSlice.js:116-121 | deleting an id no project has leaves the list as it was |
| AuthSlice.SignIn | client/src/redux/slices/authSlice.js:12-52 | on success the token and the user are stored before the thunk fulfils; on failure storage is untouched and the thunk is rejected with the server's message or the default |
| AuthSlice.LoginUser | client/src/redux/slices/authSlice.js:12-30 | loginUser, with the defaults "Login failed" and "An error occurred during login" |
| AuthSlice.RegisterUser | client/src/redux/slices/authSlice.js:32-52 | registerUser, with the defaults "Registration failed" and "An error occurred during registration" |
| AuthSlice.LoginRejectionReason | client/src/redux/slices/authSlice.js:24-27 | a rejected login carries the server's non-empty message, or "Login failed" (or, for a thrown error, the error's message or "An error occurred during login") |
| AuthSlice.AuthState.constructor | client/src/redux/slices/authSlice.js:5-9 | the user is the stored one and the session is on exactly when a non-empty token is stored |
| AuthSlice.AuthState.Logout | client/src/redux/slices/authSlice.js:58-63 | the token and the user are removed from storage, the user is null and the session is off; state and storage agree |
| AuthSlice.AuthState.SignInFulfilled | client/src/redux/slices/authSlice.js:67-76 | the session is on and the user is the payload's user |
| AuthSlice.SignInAndRecord | client/src/redux/slices/authSlice.js:12-76 | a sign-in followed by its fulfilled reducer leaves state and storage in agreement when the token is non-empty; a rejection leaves the state as it was |
| Dashboard.DashboardPage.constructor | client/src/pages/Dashboard.jsx:38-39 | no projects, order "newest" |
| Dashboard.DashboardPage.HandleSort | client/src/pages/Dashboard.jsx:48-63 | the order becomes the chosen one; the list is a permutation of the previous one, createdAt non-increasing for "newest" and non-decreasing for any other value |
| Dashboard.DashboardPage.HandleLogout | client/src/pages/Dashboard.jsx:72-77 | the stored token is removed and the stored user is kept |

## Left out

- Express routing, server start-up, the database connection and environment configuration: wiring with no logic. No authentication middleware is part of this model. The caller's id is a parameter of every handler, standing for the authenticated user on the request.
- bcrypt hashing and comparison, and jsonwebtoken signing and verification, are foreign libraries. They are function parameters, and each may fail: hashing and comparing give `None` when the library throws, and signing gives its own error. The only thing assumed about them is, in `AuthController.RegisteredUserCanLogIn`, that hashing the password succeeded and the comparer accepts the password against that hash.
- The 7-day expiry is a constant handed to the signer. Token expiry itself is not modelled.
- `server/src/models/user.model.js` is not part of this model. A user is a record of name, email and password hash.
- `AuthController.Register`: a request missing name, email or password is not modelled, because the user schema's validators are not part of this model. A missing password reaches the hasher, whose failure is modelled.
- `AuthController.Login`: a request without an email or a password is taken as a string. A missing password shows up only as a comparison failure (500), which is modelled.
- `TaskController.CreateTask`: the due date is a timestamp, so a `dueDate` that does not parse as a date, which makes `save()` fail and the handler answer 500, is not modelled.
- `TaskController.UpdateTask`: the due date is a timestamp, so a `dueDate` that fails the date cast in `findByIdAndUpdate`, which makes the handler answer 500, is not modelled.
- ObjectId generation and the clock are parameters (`newId`, `now`). A fresh id is required to be unused.
- The ObjectId cast accepts exactly 24 hexadecimal digits, in either case. The 12-byte string form is not modelled. Fresh ids (`newId`) are stored as given; the server only ever issues them in lower case.
- `TaskController.UpdateTaskStatus`: `save()` is modelled as validating the whole document, including a status it did not change. Whether the store skips the enumeration check on an unmodified status is not modelled.
- `TaskController.GetTasksByProject` builds the query and the sort specification and returns the matching tasks as a map. The store's execution of the sort is not modelled.
- `TaskController.BuildQuery` takes the due day as the timestamp of its midnight. Turning a date string into that midnight in the server's time zone (`setHours`) is not modelled.
- Dates on the client are integer timestamps, so `new Date(...)` parsing is not modelled. An unparsable date is not modelled either.
- The task page's comparator answers 1 whenever the first task has no due date, even when neither task has one. It is not a consistent comparator, so the sort is specified by its intended result instead: undated tasks last, dated tasks by date. Which of two equivalent tasks comes first is not stated.
- `null` and an absent field are the same `None`. JSON serialisation, including the user object kept in local storage, is not modelled.
- The fetch calls, `window.confirm` and the outcome of each request are parameters of the page's handlers. The request payloads themselves are not modelled.
- The thunks for tasks and projects are left out. They settle the same way as the auth thunks (`ClientModel.Settle`), with their own default messages, which are not modelled.
- The task page's own `project`, `loading` and `error` state is left out. The slices' `loading` flags are modelled; each fulfilled reducer sets its flag to false, and the slices have no pending case that sets it to true.
- The dashboard's sample data, its create-project alert and its navigation are left out. The page's projects start empty.
- Console logging and UI rendering (modals, badges, routes and the other components) are left out.

## Findings

| source | as written | input that shows it | evidently intended | confidence | as-written member | corrected member |
|---|---|---|---|---|---|---|
| server/src/models/task.model.js:15 | the status enumeration is todo / in-progress / completed, while the controller (task.controller.js:246) and the client use "done" | `updateTaskStatus` with status "done" on a task the caller owns: the controller's check accepts it, `save()` refuses it, and the reply is 500; `createTask` with status "done" likewise ends in 500 | the schema accepts the API's three statuses, todo / in-progress / done | high (not executed) | TaskModel.DoneRejectedBySchema | TaskModel.IntendedStatusesAcceptApi |
