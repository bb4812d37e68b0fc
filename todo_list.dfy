/**
 * The to-do list of the links-and-blog workspace: adding, toggling and
 * deleting to-dos, and the count of completed ones.
 */
module TodoList {
  import opened Seqs
  import opened Text

  datatype Todo = Todo(id: string, text: string, completed: bool, createdAt: int)

  /**
   * `addTodo`, with the fresh id and the clock passed in: blank input changes
   * nothing; otherwise the new to-do, holding the text as typed, goes first
   * and the input is cleared.
   */
  function AddTodo(todos: seq<Todo>, input: string, newId: string, now: int): (r: (seq<Todo>, string))
    ensures Trim(input) == [] ==> r == (todos, input)
    ensures Trim(input) != [] ==> r == ([Todo(newId, input, false, now)] + todos, [])
  {
    if Trim(input) == [] then (todos, input) else ([Todo(newId, input, false, now)] + todos, [])
  }

  /** `toggleTodo` */
  function ToggleTodo(todos: seq<Todo>, id: string): (r: seq<Todo>)
    ensures |r| == |todos|
    ensures forall i :: 0 <= i < |todos| ==>
              r[i] == if todos[i].id == id then todos[i].(completed := !todos[i].completed) else todos[i]
  {
    Map(todos, (t: Todo) => if t.id == id then t.(completed := !t.completed) else t)
  }

  /** `deleteTodo` */
  function DeleteTodo(todos: seq<Todo>, id: string): (r: seq<Todo>)
    ensures forall t :: t in r <==> t in todos && t.id != id
    ensures r == Filter(todos, NotTodo(id))
  {
    var r := Filter(todos, NotTodo(id));
    forall t ensures t in r <==> t in todos && t.id != id {
      FilterMembership(todos, NotTodo(id), t);
    }
    r
  }

  /** The filter predicate "the todo is not `id`". */
  function NotTodo(id: string): Todo -> bool
  {
    (t: Todo) => t.id != id
  }

  /** `completedCount` */
  function CompletedCount(todos: seq<Todo>): (n: nat)
    ensures n <= |todos|
  {
    |Filter(todos, (t: Todo) => t.completed)|
  }

  /** Toggling twice restores the list. */
  lemma ToggleTwice(todos: seq<Todo>, id: string)
    ensures ToggleTodo(ToggleTodo(todos, id), id) == todos
  {
  }

  /** Toggling the one to-do with that id moves the completed count by exactly one. */
  lemma {:induction false} ToggleCount(todos: seq<Todo>, id: string, k: nat)
    requires k < |todos| && todos[k].id == id
    requires forall i :: 0 <= i < |todos| && i != k ==> todos[i].id != id
    ensures CompletedCount(ToggleTodo(todos, id)) == if todos[k].completed then CompletedCount(todos) - 1 else CompletedCount(todos) + 1
  {
    var r := ToggleTodo(todos, id);
    assert r[1..] == ToggleTodo(todos[1..], id);
    if k == 0 {
      assert ToggleTodo(todos[1..], id) == todos[1..];
    } else {
      ToggleCount(todos[1..], id, k - 1);
    }
  }

  /** The completed and the open to-dos together make up the list. */
  lemma CompletedPlusOpen(todos: seq<Todo>)
    ensures CompletedCount(todos) + |Filter(todos, (t: Todo) => !t.completed)| == |todos|
  {
    FilterPartition(todos, (t: Todo) => t.completed, (t: Todo) => !t.completed);
  }

  /** A new to-do is not completed, so adding one leaves the completed count alone. */
  lemma AddKeepsCompleted(todos: seq<Todo>, input: string, newId: string, now: int)
    ensures CompletedCount(AddTodo(todos, input, newId, now).0) == CompletedCount(todos)
  {
    if Trim(input) != [] {
      assert ([Todo(newId, input, false, now)] + todos)[1..] == todos;
    }
  }

  /** Deleting an id removes it and keeps the others' order, so adding and deleting a fresh to-do gives the list back. */
  lemma AddThenDelete(todos: seq<Todo>, input: string, newId: string, now: int)
    requires Trim(input) != []
    requires forall i :: 0 <= i < |todos| ==> todos[i].id != newId
    ensures DeleteTodo(AddTodo(todos, input, newId, now).0, newId) == todos
  {
    var added := [Todo(newId, input, false, now)] + todos;
    assert added[1..] == todos;
    FilterAll(todos, (t: Todo) => t.id != newId);
  }
}
