/**
 * The task page controller: the task cache, the current filter and the
 * session keys, changed by the handlers of the page. Each network call is
 * a method that returns the request it sends and takes the server's
 * response as a parameter.
 */
module TodoPage {
  import opened Wrappers
  import opened Text
  import opened Session
  import opened Cookie
  import opened Todos

  /** The page a browser is sent to when it holds no session. */
  const AuthPage := "/auth/"

  /**
   * The guard at the top of the page: without a token the browser is sent
   * to the sign-in page and no controller is set up.
   */
  function LoadRedirect(storage: Storage): (target: Option<string>)
    ensures target.Some? <==> !HasToken(storage)
    ensures target.Some? ==> target.value == AuthPage
  {
    if storage.authToken.None? || storage.authToken.value == "" then Some(AuthPage) else None
  }

  /** The endpoints under `/api/`: `todos/`, `todos/<id>/`, `todos/clear_completed/` and `logout/`. */
  datatype Endpoint = TodoList | TodoItem(id: Id) | ClearCompleted | LogoutEndpoint

  datatype Verb = GET | POST | PUT | DELETE

  datatype Payload = NoBody | NewTask(title: string, completed: bool) | WholeTask(todo: Todo)

  /**
   * One request: its verb and endpoint, the `Authorization: Token <value>`
   * header, the `X-CSRFToken` header when it is sent, and the JSON body.
   */
  datatype Request = Request(verb: Verb, endpoint: Endpoint, token: string, csrf: Option<string>, body: Payload)

  /**
   * What `fetch` yields: a transport failure, or a status with a body that
   * `response.json()` either parses (`Some`) or rejects (`None`).
   */
  datatype Response<T> = NetworkError | Reply(status: int, body: Option<T>)

  /** `response.ok`: a status in the range 200-299. */
  predicate IsOk(status: int) {
    200 <= status <= 299
  }

  /** A 401 reply: the token has expired or is invalid. */
  predicate Unauthorized<T>(r: Response<T>) {
    r.Reply? && r.status == 401
  }

  /** An ok reply whose body parsed. */
  predicate Delivered<T>(r: Response<T>) {
    r.Reply? && IsOk(r.status) && r.body.Some?
  }

  /** An ok reply whose body is not read (DELETE and the bulk clear). */
  predicate Succeeded<T>(r: Response<T>) {
    r.Reply? && IsOk(r.status)
  }

  /** The colour class of the message box. */
  datatype NoticeTone = Danger | Success

  /** The text and colour of the page's message box. */
  datatype Notice = Notice(text: string, tone: NoticeTone)

  const FetchFailed := Notice("Error fetching tasks. Please refresh.", Danger)
  const AddFailed := Notice("Failed to add task.", Danger)
  const UpdateFailed := Notice("Failed to update task.", Danger)
  const DeleteFailed := Notice("Failed to delete task.", Danger)
  const ClearFailed := Notice("Failed to clear completed tasks.", Danger)
  const Cleared := Notice("Cleared all completed tasks.", Success)

  /** How JavaScript writes the CSRF token into a header: a missing cookie becomes the text "null". */
  function CsrfHeader(csrftoken: Option<string>): (value: string)
    ensures csrftoken.Some? ==> value == csrftoken.value
    ensures csrftoken.None? ==> value == "null"
  {
    csrftoken.GetOr("null")
  }

  class Page {
    /** The token read from storage when the page loaded; every request carries it. */
    const authToken: string
    /** `getCookie('csrftoken')`, read once when the page loaded. */
    const csrftoken: Option<string>

    /** The browser's localStorage as far as the session goes. */
    var storage: Storage
    /** The task cache. */
    var todos: seq<Todo>
    var currentFilter: string
    /** The text in the new-task input box. */
    var input: string
    /** The last message shown in the message box, if any. */
    var notice: Option<Notice>

    /**
     * Sets the page up after LoadRedirect let it through: an empty cache,
     * the filter 'all', and the CSRF token looked up in `documentCookie`.
     */
    constructor (storage: Storage, documentCookie: string, decode: string -> string, input: string)
      requires HasToken(storage)
      ensures this.storage == storage && authToken == storage.authToken.value
      ensures todos == [] && currentFilter == "all" && this.input == input && notice == None
      ensures csrftoken.None? <==> documentCookie == "" || NoneNames(Entries(documentCookie), "csrftoken")
      ensures csrftoken.Some? ==>
        exists i :: FirstNamingAt(Entries(documentCookie), "csrftoken", i) &&
          csrftoken.value == decode(Trim(Entries(documentCookie)[i])[|"csrftoken"| + 1..])
    {
      var token := GetCookie(documentCookie, "csrftoken", decode);
      this.authToken := storage.authToken.value;
      this.csrftoken := token;
      this.storage := storage;
      this.todos := [];
      this.currentFilter := "all";
      this.input := input;
      this.notice := None;
    }

    /** What the list shows now. */
    function View(): (v: Listing)
      reads this
      ensures v.rows == Filtered(todos, currentFilter)
    {
      Render(todos, currentFilter)
    }

    /** A request with the headers of `getAuthHeaders`: the session token and no CSRF header. */
    function Authorized(verb: Verb, endpoint: Endpoint, body: Payload): (r: Request)
      ensures r.token == authToken && r.verb == verb && r.endpoint == endpoint && r.body == body
      ensures r.csrf.None?
    {
      Request(verb, endpoint, authToken, None, body)
    }

    /**
     * A request to change tasks: the headers of `getAuthHeaders` plus
     * `X-CSRFToken`, which carries the cookie read at page load.
     */
    function Protected(verb: Verb, endpoint: Endpoint, body: Payload): (r: Request)
      ensures r.token == authToken && r.verb == verb && r.endpoint == endpoint && r.body == body
      ensures r.csrf == Some(CsrfHeader(csrftoken))
    {
      Authorized(verb, endpoint, body).(csrf := Some(CsrfHeader(csrftoken)))
    }

    /** The 401 handler: both session keys are removed; nothing else changes. */
    method SignOut()
      modifies this
      ensures storage == SignedOut
      ensures todos == old(todos) && currentFilter == old(currentFilter)
      ensures input == old(input) && notice == old(notice)
    {
      storage := SignedOut;
    }

    /**
     * `fetchTodos`: on a parsed ok reply the cache becomes the server's
     * list; a 401 signs out and keeps the cache; anything else keeps the
     * cache and shows the fetch error.
     */
    method FetchTodos(response: Response<seq<Todo>>) returns (sent: Request)
      modifies this
      ensures sent == Authorized(GET, TodoList, NoBody)
      ensures Unauthorized(response) ==>
        storage == SignedOut && todos == old(todos) && notice == old(notice)
      ensures Delivered(response) ==>
        storage == old(storage) && todos == response.body.value && notice == old(notice)
      ensures !Unauthorized(response) && !Delivered(response) ==>
        storage == old(storage) && todos == old(todos) && notice == Some(FetchFailed)
      ensures currentFilter == old(currentFilter) && input == old(input)
    {
      sent := Authorized(GET, TodoList, NoBody);
      if response.Reply? && response.status == 401 {
        SignOut();
        return;
      }
      if response.NetworkError? || !IsOk(response.status) || response.body.None? {
        notice := Some(FetchFailed);
        return;
      }
      todos := response.body.value;
    }

    /** `sortAndRenderTodos`: the cache is put in newest-first order. */
    method SortTodos()
      modifies this
      ensures todos == SortNewestFirst(old(todos))
      ensures storage == old(storage) && currentFilter == old(currentFilter)
      ensures input == old(input) && notice == old(notice)
    {
      todos := SortNewestFirst(todos);
    }

    /**
     * `addTask`: a title that is empty once trimmed sends nothing and
     * changes nothing. Otherwise the trimmed title is posted as an open
     * task; on a parsed ok reply the server's task joins the cache, the
     * cache is sorted newest first and the input box is cleared; a 401
     * signs out; any other outcome shows the add error. Only a parsed ok
     * reply changes the cache.
     */
    method AddTask(response: Response<Todo>) returns (sent: Option<Request>)
      modifies this
      ensures Trim(old(input)) == "" ==>
        sent == None && storage == old(storage) && todos == old(todos) && input == old(input) && notice == old(notice)
      ensures Trim(old(input)) != "" ==>
        sent == Some(Protected(POST, TodoList, NewTask(Trim(old(input)), false)))
      ensures Trim(old(input)) != "" && Unauthorized(response) ==>
        storage == SignedOut && todos == old(todos) && input == old(input) && notice == old(notice)
      ensures Trim(old(input)) != "" && Delivered(response) ==>
        && storage == old(storage) && input == "" && notice == old(notice)
        && todos == SortNewestFirst(old(todos) + [response.body.value])
      ensures Trim(old(input)) != "" && !Unauthorized(response) && !Delivered(response) ==>
        storage == old(storage) && todos == old(todos) && input == old(input) && notice == Some(AddFailed)
      ensures currentFilter == old(currentFilter)
    {
      var title := Trim(input);
      if title == "" {
        return None;
      }
      sent := Some(Protected(POST, TodoList, NewTask(title, false)));
      if response.Reply? && response.status == 401 {
        SignOut();
        return;
      }
      if response.NetworkError? || !IsOk(response.status) || response.body.None? {
        notice := Some(AddFailed);
        return;
      }
      AcceptNewTask(response.body.value);
    }

    /**
     * The success path of `addTask`: the server's task is pushed onto the
     * cache, the cache is sorted newest first and the input box emptied.
     */
    method AcceptNewTask(created: Todo)
      modifies this
      ensures todos == SortNewestFirst(old(todos) + [created])
      ensures NewestFirst(todos) && |todos| == |old(todos)| + 1
      ensures multiset(todos) == multiset(old(todos)) + multiset{created}
      ensures input == ""
      ensures storage == old(storage) && currentFilter == old(currentFilter) && notice == old(notice)
    {
      todos := todos + [created];
      SortPermutes(todos);
      SortTodos();
      input := "";
    }

    /**
     * `toggleComplete`: sends `currentTodo` with its completed flag
     * inverted; on a parsed ok reply the first cached task with that id is
     * replaced by the server's version (so the cache holds the server's
     * flag, not the local inversion) and nothing else in the cache moves.
     */
    method ToggleComplete(id: Id, currentTodo: Todo, response: Response<Todo>) returns (sent: Request)
      modifies this
      ensures sent == Protected(PUT, TodoItem(id), WholeTask(currentTodo.(completed := !currentTodo.completed)))
      ensures Unauthorized(response) ==>
        storage == SignedOut && todos == old(todos) && notice == old(notice)
      ensures Delivered(response) ==>
        && storage == old(storage) && notice == old(notice) && |todos| == |old(todos)|
        && var index := FindIndex(old(todos), id);
        && (index == -1 ==> todos == old(todos))
        && (index != -1 ==> todos[index] == response.body.value)
        && (forall k :: 0 <= k < |todos| && k != index ==> todos[k] == old(todos)[k])
      ensures !Unauthorized(response) && !Delivered(response) ==>
        storage == old(storage) && todos == old(todos) && notice == Some(UpdateFailed)
      ensures currentFilter == old(currentFilter) && input == old(input)
    {
      sent := Protected(PUT, TodoItem(id), WholeTask(currentTodo.(completed := !currentTodo.completed)));
      if response.Reply? && response.status == 401 {
        SignOut();
        return;
      }
      if response.NetworkError? || !IsOk(response.status) || response.body.None? {
        notice := Some(UpdateFailed);
        return;
      }
      var index := FindIndex(todos, id);
      if index != -1 {
        todos := todos[index := response.body.value];
      }
    }

    /**
     * `deleteTask`: on an ok reply every cached task with that id goes and
     * the others stay in order; a 401 signs out; anything else keeps the
     * cache and shows the delete error.
     */
    method DeleteTask(id: Id, response: Response<()>) returns (sent: Request)
      modifies this
      ensures sent == Protected(DELETE, TodoItem(id), NoBody)
      ensures Unauthorized(response) ==>
        storage == SignedOut && todos == old(todos) && notice == old(notice)
      ensures Succeeded(response) ==>
        && storage == old(storage) && notice == old(notice)
        && todos == Keep(old(todos), (t: Todo) => t.id != id)
        && IsSubsequence(todos, old(todos))
        && (forall k :: 0 <= k < |todos| ==> todos[k].id != id)
        && (forall t :: t in old(todos) && t.id != id ==> t in todos)
      ensures !Unauthorized(response) && !Succeeded(response) ==>
        storage == old(storage) && todos == old(todos) && notice == Some(DeleteFailed)
      ensures currentFilter == old(currentFilter) && input == old(input)
    {
      sent := Protected(DELETE, TodoItem(id), NoBody);
      if response.Reply? && response.status == 401 {
        SignOut();
        return;
      }
      if response.NetworkError? || !IsOk(response.status) {
        notice := Some(DeleteFailed);
        return;
      }
      ghost var before := todos;
      todos := Keep(todos, (t: Todo) => t.id != id);
      KeepCounts(before, (t: Todo) => t.id != id);
      forall t | t in before && t.id != id ensures t in todos {
        assert multiset(todos)[t] == multiset(before)[t];
      }
    }

    /**
     * `clearCompletedTasks`: posts the bulk clear; on an ok reply the list
     * is fetched again (with `refetch` as that reply, under FetchTodos'
     * rules) and "Cleared all completed tasks." is shown whatever the
     * fetch did; a 401 signs out; anything else shows the clear error.
     */
    method ClearCompletedTasks(response: Response<()>, refetch: Response<seq<Todo>>)
      returns (sent: seq<Request>)
      modifies this
      ensures Unauthorized(response) ==>
        sent == [Protected(POST, ClearCompleted, NoBody)] &&
        storage == SignedOut && todos == old(todos) && notice == old(notice)
      ensures Succeeded(response) ==>
        && sent == [Protected(POST, ClearCompleted, NoBody), Authorized(GET, TodoList, NoBody)]
        && notice == Some(Cleared)
        && (Unauthorized(refetch) ==> storage == SignedOut && todos == old(todos))
        && (Delivered(refetch) ==> storage == old(storage) && todos == refetch.body.value)
        && (!Unauthorized(refetch) && !Delivered(refetch) ==> storage == old(storage) && todos == old(todos))
      ensures !Unauthorized(response) && !Succeeded(response) ==>
        sent == [Protected(POST, ClearCompleted, NoBody)] &&
        storage == old(storage) && todos == old(todos) && notice == Some(ClearFailed)
      ensures currentFilter == old(currentFilter) && input == old(input)
    {
      var clear := Protected(POST, ClearCompleted, NoBody);
      sent := [clear];
      if response.Reply? && response.status == 401 {
        SignOut();
        return;
      }
      if response.NetworkError? || !IsOk(response.status) {
        notice := Some(ClearFailed);
        return;
      }
      var get := FetchTodos(refetch);
      sent := sent + [get];
      notice := Some(Cleared);
    }

    /** `setFilter`: only the filter changes; the list is shown again from the cache. */
    method SetFilter(filter: string)
      modifies this
      ensures currentFilter == filter
      ensures storage == old(storage) && todos == old(todos)
      ensures input == old(input) && notice == old(notice)
    {
      currentFilter := filter;
    }

    /**
     * `logout`: posts to the logout endpoint and, whether that succeeds or
     * fails, removes both session keys. The reply is never inspected.
     */
    method Logout() returns (sent: Request)
      modifies this
      ensures sent == Authorized(POST, LogoutEndpoint, NoBody)
      ensures storage == SignedOut
      ensures todos == old(todos) && currentFilter == old(currentFilter)
      ensures input == old(input) && notice == old(notice)
    {
      sent := Authorized(POST, LogoutEndpoint, NoBody);
      SignOut();
    }
  }
}
