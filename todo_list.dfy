/** The todo list app: a list of todos that the add, toggle and delete
    handlers replace, the text being typed, and the counts shown below. */
module TodoList {
  import opened Text
  import opened Seqs

  datatype Todo = Todo(id: int, text: string, completed: bool)

  const InitialTodos: seq<Todo> := [
    Todo(1, "Learn React", true),
    Todo(2, "Build a Todo App", false),
    Todo(3, "Write Tests", false)
  ]

  function Flip(t: Todo, id: int): Todo {
    if t.id == id then t.(completed := !t.completed) else t
  }

  /** `todos.map(todo => todo.id === id ? { ...todo, completed: !todo.completed } : todo)`. */
  function ToggledById(todos: seq<Todo>, id: int): (r: seq<Todo>)
    ensures |r| == |todos|
    ensures forall i :: 0 <= i < |r| ==> r[i].id == todos[i].id && r[i].text == todos[i].text
    ensures forall i :: 0 <= i < |r| ==> r[i].completed == (todos[i].completed != (todos[i].id == id))
  {
    seq(|todos|, i requires 0 <= i < |todos| => Flip(todos[i], id))
  }

  /** Toggling the same id twice gives back the list. */
  lemma ToggleTwice(todos: seq<Todo>, id: int)
    ensures ToggledById(ToggledById(todos, id), id) == todos
  {
    var r := ToggledById(ToggledById(todos, id), id);
    assert forall i :: 0 <= i < |r| ==> r[i] == todos[i];
  }

  /** Toggling an id no todo has changes nothing. */
  lemma ToggleUnknown(todos: seq<Todo>, id: int)
    requires forall i :: 0 <= i < |todos| ==> todos[i].id != id
    ensures ToggledById(todos, id) == todos
  {
    var r := ToggledById(todos, id);
    assert forall i :: 0 <= i < |r| ==> r[i] == todos[i];
  }

  /** `todos.filter(todo => todo.id !== id)`. */
  function WithoutId(todos: seq<Todo>, id: int): seq<Todo> {
    Filter(todos, (t: Todo) => t.id != id)
  }

  /** Deleting removes every todo with the id, keeps every other todo, keeps
      the order, and leaves the list as it was when no todo has the id. */
  lemma DeleteProperties(todos: seq<Todo>, id: int)
    ensures forall i :: 0 <= i < |WithoutId(todos, id)| ==> WithoutId(todos, id)[i].id != id
    ensures forall i :: 0 <= i < |todos| && todos[i].id != id ==> todos[i] in WithoutId(todos, id)
    ensures IsSubsequence(WithoutId(todos, id), todos)
    ensures (forall i :: 0 <= i < |todos| ==> todos[i].id != id) ==> WithoutId(todos, id) == todos
  {
    FilterIsSubsequence(todos, (t: Todo) => t.id != id);
    if forall i :: 0 <= i < |todos| ==> todos[i].id != id {
      FilterKeepsAll(todos, (t: Todo) => t.id != id);
    }
  }

  /** `todos.filter(todo => todo.completed).length`. */
  function CompletedCount(todos: seq<Todo>): nat {
    |Filter(todos, (t: Todo) => t.completed)|
  }

  /** `todos.filter(todo => !todo.completed).length`. */
  function RemainingCount(todos: seq<Todo>): nat {
    |Filter(todos, (t: Todo) => !t.completed)|
  }

  /** Completed and remaining add up to the total. */
  lemma StatsAddUp(todos: seq<Todo>)
    ensures CompletedCount(todos) + RemainingCount(todos) == |todos|
  {
    FilterSplit(todos, (t: Todo) => t.completed, (t: Todo) => !t.completed);
  }

  /** No todo has a blank text. */
  predicate NoBlankTodo(todos: seq<Todo>) {
    forall i :: 0 <= i < |todos| ==> !IsBlank(todos[i].text)
  }

  class TodoListState {
    var todos: seq<Todo>
    var newTodo: string

    predicate Valid()
      reads this
    {
      NoBlankTodo(todos)
    }

    constructor ()
      ensures Valid()
      ensures todos == InitialTodos && newTodo == ""
    {
      todos := InitialTodos;
      newTodo := "";
    }

    /** Typing in the input. */
    method SetNewTodo(value: string)
      requires Valid()
      modifies this
      ensures Valid()
      ensures newTodo == value && todos == old(todos)
    {
      newTodo := value;
    }

    /** `handleAddTodo`: blank input changes nothing; otherwise one todo with
        the trimmed text, not completed, goes at the end and the input clears.
        `now` is the clock reading used as the new id. */
    method HandleAddTodo(now: int)
      requires Valid()
      modifies this
      ensures Valid()
      ensures IsBlank(old(newTodo)) ==> todos == old(todos) && newTodo == old(newTodo)
      ensures !IsBlank(old(newTodo)) ==>
                todos == old(todos) + [Todo(now, Trim(old(newTodo)), false)] && newTodo == ""
    {
      TrimmedEmptyIffBlank(newTodo);
      if Trim(newTodo) == "" {
        return;
      }
      TrimKeepsText(newTodo);
      var todo := Todo(now, Trim(newTodo), false);
      todos := todos + [todo];
      newTodo := "";
    }

    method HandleToggleTodo(id: int)
      requires Valid()
      modifies this
      ensures Valid()
      ensures todos == ToggledById(old(todos), id) && newTodo == old(newTodo)
    {
      todos := ToggledById(todos, id);
    }

    method HandleDeleteTodo(id: int)
      requires Valid()
      modifies this
      ensures Valid()
      ensures todos == WithoutId(old(todos), id) && newTodo == old(newTodo)
    {
      todos := WithoutId(todos, id);
    }
  }
}
