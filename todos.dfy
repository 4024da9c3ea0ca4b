/**
 * The pure part of the task page: the task record, `Array.prototype.filter`
 * as the page uses it, the render-time filter and empty-state choice, the
 * newest-first sort and `findIndex` by id.
 */
module Todos {
  import opened Wrappers

  type Id = int

  /** A task as the server serialises it; `createdAt` is the creation time as a timestamp. */
  datatype Todo = Todo(id: Id, title: string, completed: bool, createdAt: int)

  /** `sub` is `s` with some elements left out and the rest in their original order. */
  ghost predicate IsSubsequence<T>(sub: seq<T>, s: seq<T>)
    decreases |s|
  {
    if sub == [] then true
    else if s == [] then false
    else if sub[0] == s[0] then IsSubsequence(sub[1..], s[1..])
    else IsSubsequence(sub, s[1..])
  }

  /**
   * `todos.filter(keep)`: the elements for which `keep` holds, in their
   * original order (KeepCounts: each as often as it occurs in `todos`).
   */
  function Keep(todos: seq<Todo>, keep: Todo -> bool): (r: seq<Todo>)
    ensures IsSubsequence(r, todos)
    ensures forall i :: 0 <= i < |r| ==> keep(r[i])
  {
    if todos == [] then []
    else
      var rest := Keep(todos[1..], keep);
      if keep(todos[0]) then [todos[0]] + rest else rest
  }

  /** Every element that meets `keep` survives `Keep` as often as it occurs; no other does. */
  lemma {:induction false} KeepCounts(todos: seq<Todo>, keep: Todo -> bool)
    ensures forall t :: multiset(Keep(todos, keep))[t] == if keep(t) then multiset(todos)[t] else 0
  {
    if todos != [] {
      KeepCounts(todos[1..], keep);
      assert todos == [todos[0]] + todos[1..];
    }
  }

  /** Keeping with a condition every element meets changes nothing. */
  lemma {:induction false} KeepAll(todos: seq<Todo>, keep: Todo -> bool)
    requires forall i :: 0 <= i < |todos| ==> keep(todos[i])
    ensures Keep(todos, keep) == todos
  {
    if todos != [] {
      KeepAll(todos[1..], keep);
    }
  }

  // ---- renderTodos: the filter and the empty-state message ----

  /**
   * The test `renderTodos` applies to each task under `currentFilter`:
   * 'active' shows the open tasks, 'completed' the done ones, and every
   * other value (normally 'all') shows everything.
   */
  function Shows(filter: string, t: Todo): (shown: bool)
    ensures shown <==> (filter == "active" ==> !t.completed) && (filter == "completed" ==> t.completed)
  {
    if filter == "active" then !t.completed
    else if filter == "completed" then t.completed
    else true
  }

  /** The tasks `renderTodos` lists under `filter`. */
  function Filtered(todos: seq<Todo>, filter: string): (r: seq<Todo>)
    ensures IsSubsequence(r, todos)
    ensures forall i :: 0 <= i < |r| ==> Shows(filter, r[i])
    ensures forall t :: multiset(r)[t] == if Shows(filter, t) then multiset(todos)[t] else 0
  {
    KeepCounts(todos, (t: Todo) => Shows(filter, t));
    Keep(todos, (t: Todo) => Shows(filter, t))
  }

  /** Under any filter other than 'active' and 'completed' every task is listed, in order. */
  lemma FilterAllListsEverything(todos: seq<Todo>, filter: string)
    requires filter != "active" && filter != "completed"
    ensures Filtered(todos, filter) == todos
  {
    KeepAll(todos, (t: Todo) => Shows(filter, t));
  }

  /** The 'active' and 'completed' views split the cache between them: each task is in exactly one. */
  lemma ActiveAndCompletedPartition(todos: seq<Todo>)
    ensures multiset(Filtered(todos, "active")) + multiset(Filtered(todos, "completed")) == multiset(todos)
    ensures |Filtered(todos, "active")| + |Filtered(todos, "completed")| == |todos|
  {
    var a, c := Filtered(todos, "active"), Filtered(todos, "completed");
    assert multiset(a) + multiset(c) == multiset(todos) by {
      forall t ensures (multiset(a) + multiset(c))[t] == multiset(todos)[t] {
      }
    }
    assert |multiset(a) + multiset(c)| == |multiset(todos)|;
  }

  const EmptyList := "Your to-do list is empty!"
  const NoMatch := "No tasks for this filter."

  /** What the list shows: the filtered rows, and the placeholder line, if any. */
  datatype Listing = Listing(rows: seq<Todo>, placeholder: Option<string>)

  /**
   * `renderTodos` for the cache `todos` under `filter`: the filtered rows,
   * with "No tasks for this filter." when the cache has tasks but none is
   * shown, and "Your to-do list is empty!" when the cache is empty.
   */
  function Render(todos: seq<Todo>, filter: string): (v: Listing)
    ensures v.rows == Filtered(todos, filter)
  {
    var rows := Filtered(todos, filter);
    var placeholder :=
      if |rows| == 0 && |todos| > 0 then Some(NoMatch)
      else if |todos| == 0 then Some(EmptyList)
      else None;
    Listing(rows, placeholder)
  }

  /**
   * The two empty-state messages are told apart exactly by whether the
   * cache is empty, and neither appears when some task is listed.
   */
  lemma EmptyStateChoice(todos: seq<Todo>, filter: string)
    ensures Render(todos, filter).placeholder == Some(EmptyList) <==> todos == []
    ensures Render(todos, filter).placeholder == Some(NoMatch) <==>
      todos != [] && Filtered(todos, filter) == []
    ensures Render(todos, filter).placeholder == None <==> Filtered(todos, filter) != []
  {
    var rows := Filtered(todos, filter);
    if todos == [] {
      assert |multiset(rows)| == 0 by {
        forall t ensures multiset(rows)[t] == 0 { }
      }
    }
  }

  // ---- sortAndRenderTodos: newest first ----

  /** Every task is at least as new as the one after it (NewestFirstOrdersAll: and as every later one). */
  ghost predicate NewestFirst(todos: seq<Todo>) {
    forall i :: 0 < i < |todos| ==> todos[i - 1].createdAt >= todos[i].createdAt
  }

  /** In a newest-first list every task is at least as new as every task after it. */
  lemma {:induction false} NewestFirstOrdersAll(todos: seq<Todo>, i: int, j: int)
    requires NewestFirst(todos)
    requires 0 <= i <= j < |todos|
    ensures todos[i].createdAt >= todos[j].createdAt
    decreases j - i
  {
    if i < j {
      NewestFirstOrdersAll(todos, i + 1, j);
    }
  }

  /**
   * Places `t` into the newest-first list `todos` after every strictly newer
   * task and before every other one (InsertAdds: the tasks are those of
   * `todos` plus `t`).
   */
  function Insert(t: Todo, todos: seq<Todo>): (r: seq<Todo>)
    ensures NewestFirst(todos) ==> NewestFirst(r)
    ensures |r| == |todos| + 1
    ensures r[0] == t || (todos != [] && r[0] == todos[0])
  {
    if todos == [] || t.createdAt >= todos[0].createdAt then [t] + todos
    else [todos[0]] + Insert(t, todos[1..])
  }

  /** Inserting adds exactly `t` to the tasks of the list. */
  lemma {:induction false} InsertAdds(t: Todo, todos: seq<Todo>)
    ensures multiset(Insert(t, todos)) == multiset(todos) + multiset{t}
    decreases |todos|
  {
    if todos == [] || t.createdAt >= todos[0].createdAt {
    } else {
      InsertAdds(t, todos[1..]);
      assert todos == [todos[0]] + todos[1..];
    }
  }

  /**
   * `todos.sort((a, b) => b.created_at - a.created_at)`: the tasks
   * newest first (SortPermutes: the same tasks). Array.prototype.sort has
   * been stable since ECMAScript 2019; SortIsStable states it for this model.
   */
  function SortNewestFirst(todos: seq<Todo>): (r: seq<Todo>)
    ensures NewestFirst(r)
    ensures |r| == |todos|
  {
    if todos == [] then [] else Insert(todos[0], SortNewestFirst(todos[1..]))
  }

  /** The sort neither loses nor invents a task: its result is a permutation of its input. */
  lemma {:induction false} SortPermutes(todos: seq<Todo>)
    ensures multiset(SortNewestFirst(todos)) == multiset(todos)
  {
    if todos != [] {
      var head, tail := todos[0], todos[1..];
      SortPermutes(tail);
      InsertPermutes(head, tail, SortNewestFirst(tail));
      assert todos == [head] + tail;
    }
  }

  /** The step of SortPermutes: inserting `head` into a permutation of `tail` gives a permutation of `[head] + tail`. */
  lemma InsertPermutes(head: Todo, tail: seq<Todo>, rest: seq<Todo>)
    requires multiset(rest) == multiset(tail)
    ensures multiset(Insert(head, rest)) == multiset([head] + tail)
  {
    InsertAdds(head, rest);
  }

  /** A list that is already newest first comes back from the sort unchanged (the server's own order is newest first). */
  lemma {:induction false} SortKeepsSortedList(todos: seq<Todo>)
    requires NewestFirst(todos)
    ensures SortNewestFirst(todos) == todos
  {
    if todos != [] {
      SortKeepsSortedList(todos[1..]);
    }
  }

  /** The tasks created at `time`, in list order. */
  function CreatedAt(todos: seq<Todo>, time: int): seq<Todo> {
    Keep(todos, CreatedAtTime(time))
  }

  /** The test "created at `time`". */
  function CreatedAtTime(time: int): Todo -> bool {
    (t: Todo) => t.createdAt == time
  }

  /** Keeping over a list with a first element: that element decides for itself. */
  lemma KeepCons(x: Todo, todos: seq<Todo>, keep: Todo -> bool)
    ensures Keep([x] + todos, keep) == (if keep(x) then [x] else []) + Keep(todos, keep)
  {
    assert ([x] + todos)[1..] == todos;
  }

  /** Inserting a task puts it before every other task created at the same time. */
  lemma {:induction false} InsertIsStable(t: Todo, todos: seq<Todo>, time: int)
    ensures CreatedAt(Insert(t, todos), time) ==
      (if t.createdAt == time then [t] else []) + CreatedAt(todos, time)
  {
    if todos == [] || t.createdAt >= todos[0].createdAt {
      assert Insert(t, todos) == [t] + todos;
      KeepCons(t, todos, CreatedAtTime(time));
    } else {
      var head, tail := todos[0], todos[1..];
      InsertIsStable(t, tail, time);
      assert Insert(t, todos) == [head] + Insert(t, tail);
      assert todos == [head] + tail;
      PassNewer(head, tail, Insert(t, tail), t, time);
    }
  }

  /**
   * The step of InsertIsStable where `t` moves past a strictly newer task
   * `head`: `head` is not created at `t`'s time, so it cannot come between
   * `t` and the tasks created at that time.
   */
  lemma PassNewer(head: Todo, tail: seq<Todo>, rest: seq<Todo>, t: Todo, time: int)
    requires t.createdAt < head.createdAt
    requires CreatedAt(rest, time) == (if t.createdAt == time then [t] else []) + CreatedAt(tail, time)
    ensures CreatedAt([head] + rest, time) ==
      (if t.createdAt == time then [t] else []) + CreatedAt([head] + tail, time)
  {
    var atTime := CreatedAtTime(time);
    KeepCons(head, rest, atTime);
    KeepCons(head, tail, atTime);
    assert atTime(head) == (head.createdAt == time);
  }

  /** Tasks with equal creation times keep their relative order through the sort. */
  lemma {:induction false} SortIsStable(todos: seq<Todo>, time: int)
    ensures CreatedAt(SortNewestFirst(todos), time) == CreatedAt(todos, time)
  {
    if todos != [] {
      SortIsStable(todos[1..], time);
      InsertIsStable(todos[0], SortNewestFirst(todos[1..]), time);
    }
  }

  // ---- toggleComplete: findIndex by id ----

  /**
   * `todos.findIndex(t => t.id === id)`: the index of the first task with
   * that id, or -1 when there is none.
   */
  function FindIndex(todos: seq<Todo>, id: Id): (index: int)
    ensures -1 <= index < |todos|
    ensures index == -1 <==> forall k :: 0 <= k < |todos| ==> todos[k].id != id
    ensures index >= 0 ==> todos[index].id == id && forall k :: 0 <= k < index ==> todos[k].id != id
  {
    if todos == [] then -1
    else if todos[0].id == id then 0
    else
      var k := FindIndex(todos[1..], id);
      if k == -1 then -1 else k + 1
  }
}
