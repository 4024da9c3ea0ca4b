# To-do app browser logic, modelled in Dafny

The to-do application has two browser scripts. This project models their decision logic.

- `todo.js` runs the task page. It keeps a cache of the user's tasks, a current filter and the session held in `localStorage`. It talks to the REST API under `/api/todos/` and renders the filtered list.
- `auth.js` runs the sign-in page. It sends a visitor who is already signed in to the app, stores the session after a granted login, checks that the two password fields agree before registering, and picks the message shown for a rejected registration.

The model is in seven files:

- `wrappers.dfy`: `Option`, which stands for JavaScript's `null` or an absent key.
- `text.dfy`: the JavaScript built-ins the scripts use. These are `trim` (over the full ECMAScript WhiteSpace and LineTerminator set), `split` on one character and `join`.
- `session.dfy`: the two `localStorage` keys, `authToken` and `user`, and JavaScript's truthiness test on the token.
- `cookie.dfy`: `getCookie`, a loop over the `;`-separated entries of `document.cookie`. This is the Cookie header shape of section 4.2.1 of RFC 6265.
- `todos.dfy`: the pure part of `todo.js`. It covers the task record, `filter`, the render-time filter and empty-state message, the stable newest-first sort and `findIndex`.
- `todo_page.dfy`: the task page as a class, `TodoPage.Page`. Its mutable fields are the cache, the filter, the session storage, the input box and the message box. Each request handler is a method. The method takes the server's reply as a parameter (a transport failure, or a status with a body that parsed or did not). It returns the request it sends and states the whole new state.
- `auth.dfy`: the sign-in page's decisions, written as pure functions from form values and replies to alerts and storage updates.

Behaviours of the code worth knowing, all modelled as written:

- A 401 on the refetch after a successful bulk clear still ends with "Cleared all completed tasks." on screen (`ClearCompletedTasks`).
- `data.error || default` treats an empty `error` text as absent (`Login`).
- The logout POST carries no `X-CSRFToken` header, only the token header; `Logout` sends its request through `Authorized`.

## Model

| member | source | states |
|---|---|---|
| Text.Trim | todoproject/static/js/todo.js:83 | `trim()` returns text that neither starts nor ends with ECMAScript whitespace and is no longer than its input |
| Text.TrimCutsOnlyWhitespace | todoproject/static/js/todo.js:83 | what `trim()` keeps is one slice of the input, and everything cut off on either side is whitespace |
| Text.TrimEmptyIff | todoproject/static/js/todo.js:120-121 | a title is empty after trimming exactly when every character typed is whitespace, which is when `addTask` sends nothing |
| Text.TrimIdempotent | todoproject/static/js/todo.js:120 | trimming an already trimmed title changes nothing |
| Text.Split | todoproject/static/js/todo.js:81 | `split(';')` gives at least one piece, and no piece contains the separator |
| Text.Join | todoproject/static/js/auth.js:106-113 | `join(' ')` of no messages is the empty text, and a joined list starts with its first message |
| Text.JoinSplit | todoproject/static/js/todo.js:81 | joining the pieces of `split(';')` with `;` rebuilds the cookie string, so no text is lost |
| Text.SplitJoin | todoproject/static/js/todo.js:81 | splitting a join of separator-free pieces gives the same pieces back |
| Cookie.NamesEntry | todoproject/static/js/todo.js:84 | an entry that passes the `substring` test starts with the name's characters followed by `=` |
| Cookie.NamesEntryIff | todoproject/static/js/todo.js:84 | an entry matches `name` exactly when it starts with `name` followed directly by `=`, so `csrftokenX=…` never matches `csrftoken` |
| Cookie.NamesAtMostOne | todoproject/static/js/todo.js:84 | for names without `=`, an entry matches at most one name |
| Cookie.GetCookie | todoproject/static/js/todo.js:78-91 | the result is null exactly when the cookie string is empty or no trimmed entry matches; otherwise it is the decoded text after `name=` in the first matching entry |
| Todos.Keep | todoproject/static/js/todo.js:200 | `filter` returns a subsequence of the cache (same order), and every element kept satisfies the test |
| Todos.KeepCounts | todoproject/static/js/todo.js:200 | each element that satisfies the test is kept as often as it occurs, and no other element is kept |
| Todos.Shows | todoproject/static/js/todo.js:243-247 | a task is shown unless the filter is 'active' and the task is done, or the filter is 'completed' and the task is open |
| Todos.Filtered | todoproject/static/js/todo.js:243-247 | the rendered rows are the cache's tasks that the current filter shows, in cache order and with their multiplicities: 'active' shows open tasks, 'completed' shows done tasks |
| Todos.FilterAllListsEverything | todoproject/static/js/todo.js:246 | any filter value other than 'active' and 'completed' lists the whole cache unchanged |
| Todos.ActiveAndCompletedPartition | todoproject/static/js/todo.js:244-245 | the 'active' and 'completed' views together hold every cached task exactly once |
| Todos.Render | todoproject/static/js/todo.js:240-255 | the rows rendered are the filtered cache |
| Todos.EmptyStateChoice | todoproject/static/js/todo.js:249-253 | "Your to-do list is empty!" appears exactly when the cache is empty; "No tasks for this filter." appears exactly when the cache has tasks but the filter shows none; neither appears when a row is listed |
| Todos.NewestFirstOrdersAll | todoproject/static/js/todo.js:236 | in a newest-first list each task is at least as new as every later task |
| Todos.Insert | todoproject/static/js/todo.js:236 | inserting into a newest-first list keeps it newest first and adds one element |
| Todos.InsertAdds | todoproject/static/js/todo.js:141 | insertion adds exactly the new task to the multiset of tasks |
| Todos.SortNewestFirst | todoproject/static/js/todo.js:236 | the sorted cache is in non-increasing `created_at` order and has the same length |
| Todos.SortPermutes | todoproject/static/js/todo.js:236 | the sorted cache is a permutation of the cache |
| Todos.SortKeepsSortedList | todoproject/static/js/todo.js:236 | a cache already newest first (the server's own order) comes out of the sort unchanged |
| Todos.InsertIsStable | todoproject/static/js/todo.js:236 | an inserted task goes before every task created at the same time |
| Todos.PassNewer | todoproject/static/js/todo.js:236 | moving past a strictly newer task does not disturb the tasks created at the inserted task's time |
| Todos.SortIsStable | todoproject/static/js/todo.js:236 | tasks with equal `created_at` keep their relative order, as `Array.prototype.sort` must |
| Todos.FindIndex | todoproject/static/js/todo.js:171 | `findIndex` is -1 exactly when no task has the id; otherwise the task there has the id and no earlier task does |
| Session.HasToken | todoproject/static/js/todo.js:7 | a stored token is falsy exactly when the key is missing (`null`) or holds the empty string |
| TodoPage.LoadRedirect | todoproject/static/js/todo.js:4-11 | the task page sends the browser to `/auth/` exactly when no truthy token is stored |
| TodoPage.CsrfHeader | todoproject/static/js/todo.js:127 | the `X-CSRFToken` header carries the cookie's value when it was found, and the text "null" when it was not |
| TodoPage.Page.constructor | todoproject/static/js/todo.js:4-92 | the page starts with an empty cache, the filter 'all' and the stored token; its CSRF token is null exactly when the cookie string is empty or no entry names `csrftoken`, and otherwise it is the decoded value after `csrftoken=` in the first entry naming it |
| TodoPage.Page.View | todoproject/static/js/todo.js:240-247 | what the page lists is the cache filtered by the current filter |
| TodoPage.Page.Authorized | todoproject/static/js/todo.js:34-39 | the list fetch and the logout request carry the page's token and no CSRF header |
| TodoPage.Page.Protected | todoproject/static/js/todo.js:125-128 | the four task-changing requests carry the page's token and an `X-CSRFToken` header with the cookie value read at load |
| TodoPage.Page.SignOut | todoproject/static/js/todo.js:101-107 | a 401 removes both session keys and changes nothing else |
| TodoPage.Page.FetchTodos | todoproject/static/js/todo.js:95-116 | a parsed ok reply replaces the cache; a 401 signs out and keeps the cache; any other outcome keeps the cache and shows the fetch error |
| TodoPage.Page.SortTodos | todoproject/static/js/todo.js:235-238 | the cache is put newest first and nothing else changes |
| TodoPage.Page.AddTask | todoproject/static/js/todo.js:118-149 | a whitespace-only title sends nothing and changes nothing. Otherwise the trimmed title is posted as an open task. A parsed ok reply makes the cache the newest-first sort of the old cache plus the server's task, and empties the input. `SortNewestFirst` and `SortPermutes` state the order and the permutation. A 401 signs out and keeps the cache. Any other outcome shows the add error and keeps the cache |
| TodoPage.Page.AcceptNewTask | todoproject/static/js/todo.js:140-143 | the server's task is added and the cache sorted newest first; the cache is a permutation of the old cache plus that task; the input box is emptied |
| TodoPage.Page.ToggleComplete | todoproject/static/js/todo.js:151-180 | sends the task with `completed` inverted. A parsed ok reply replaces the first cached task with that id by the server's version (so the cache holds the server's flag) and leaves every other entry and the length as they were; with no such id the cache is unchanged. A 401 signs out; other failures keep the cache |
| TodoPage.Page.DeleteTask | todoproject/static/js/todo.js:182-206 | an ok reply removes every task with that id and keeps the others in order; a 401 signs out and keeps the cache; other failures keep the cache and show the delete error |
| TodoPage.Page.ClearCompletedTasks | todoproject/static/js/todo.js:208-232 | an ok reply leads to a refetch under the fetch rules, and "Cleared all completed tasks." is shown whatever the refetch did; a 401 signs out and keeps the cache; other failures keep the cache and show the clear error |
| TodoPage.Page.SetFilter | todoproject/static/js/todo.js:278-281 | only `currentFilter` changes |
| TodoPage.Page.Logout | todoproject/static/js/todo.js:61-75 | both session keys are always removed, whatever the logout request did, and nothing else changes |
| Auth.OnLoad | todoproject/static/js/auth.js:3-5 | a stored truthy token sends the browser to `/api/app/` without any request; otherwise the page stays |
| Auth.Login | todoproject/static/js/auth.js:43-60 | an ok reply stores the token under `authToken` and the user under `user`, shows success and moves to the app page. A refusal shows the server's non-empty `error`, or else "Login failed. Please try again.". No reply shows the network error. Only an ok reply touches storage |
| Auth.FailedLoginAlertNotEmpty | todoproject/static/js/auth.js:55 | a failed login always shows a non-empty message |
| Auth.LoginThenReload | todoproject/static/js/auth.js:3-5 | after a granted login with a non-empty token the sign-in page redirects to the app; a failed login leaves that decision as it was |
| Auth.SubmitRegistration | todoproject/static/js/auth.js:73-90 | differing passwords stop with "Passwords do not match." and no request, exactly when they differ; otherwise all four fields are sent as typed |
| Auth.RegistrationErrorMessage | todoproject/static/js/auth.js:105-115 | a username error makes the message start with "Username: "; otherwise an email error with "Email: "; otherwise a password error with "Password: "; with no key at all the message is the generic registration failure |
| Auth.RegistrationResult | todoproject/static/js/auth.js:92-119 | exactly a created reply switches to the login tab with the success alert; a rejection shows the error-map message; no reply shows the network error |
| Auth.FirstPresent | todoproject/static/js/auth.js:105-113 | the field chosen is one that is present, and none is chosen exactly when all are absent |
| Auth.ReportedByCases | todoproject/static/js/auth.js:105-114 | the reported field is username if present, else email, else password, else non_field_errors, else none |
| Auth.MessageFollowsPriority | todoproject/static/js/auth.js:105-114 | the message is the reported field's label ("Username: ", "Email: ", "Password: ", or none for non_field_errors) followed by its messages joined with single spaces; with no key present it is "Registration failed. Please try again." |
| Auth.ReportedIsFirst | todoproject/static/js/auth.js:105-112 | a field is reported exactly when it is present and every field of higher priority is absent |
| Auth.UsernameDominates | todoproject/static/js/auth.js:105-106 | a username error decides the message, whatever other keys the map holds |

## Left out

- HTTP and JSON are not modelled. `fetch`, status handling beyond the status code, and JSON parsing are replaced by the `Response` and reply parameters; a body that does not parse is `None`.
- The `Content-Type` header is not modelled.
- DOM rendering is not modelled: `innerHTML`, `createElement`, the per-row click handlers, the class toggling in `updateFilterButtons`, and `displayUserInfo`. `Render` keeps only the rows and the placeholder text.
- Timers and navigation are side effects and are not modelled: `setTimeout`, the auto-dismiss of messages, the redirect delays, and `console.error`. `window.location` is kept only as the target that `LoadRedirect`, `OnLoad` and `Login` return. `TodoPage.Page` does not record the navigation that follows a 401 or a logout.
- `decodeURIComponent` is the opaque parameter `decode`. The `URIError` it can throw on a malformed value is not modelled.
- `created_at` is an integer timestamp. `new Date(...)` parsing and a `NaN` comparator result are not modelled.
- `JSON.stringify` and `JSON.parse` of the user are not modelled. The storage holds the `User` record itself.
- `localStorage` is modelled as the two keys the pages use.
- A login reply with an ok status but without `token` or `user` is not modelled. The browser would store the text "undefined".
- A registration error entry that is not an array is not modelled. `join` would throw on it.
- The registration success path is modelled as the flag that switches to the login tab. Resetting the form is DOM work.
- Overlapping requests, such as a rapid double delete, are concurrency and are out of scope.
- The server side is not part of this model: `todoapi/views.py`, `urls.py`, `models.py` and `serializers.py`. They are Django ORM, routing and serializer declarations.
