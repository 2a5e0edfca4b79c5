/**
 * The todo page: the form wired to the store's `addTodo`, and the
 * "N of M tasks remaining" line shown under a non-empty list.
 */
module TodoPageView {
  import opened Wrappers
  import opened Trimming
  import opened TodoHook
  import opened TodoFormField

  /** How many todos are still open (`completed == false`). */
  function Remaining(todos: seq<Todo>): (n: nat)
    ensures n <= |todos|
    ensures n == 0 <==> forall i :: 0 <= i < |todos| ==> todos[i].completed
    ensures n == |todos| <==> forall i :: 0 <= i < |todos| ==> !todos[i].completed
  {
    if todos == [] then 0
    else (if todos[0].completed then 0 else 1) + Remaining(todos[1..])
  }

  /** Counting open todos is additive over concatenation; with
      `RemainingSingle` this fixes the count as the number of open todos. */
  lemma {:induction false} RemainingAppend(a: seq<Todo>, b: seq<Todo>)
    ensures Remaining(a + b) == Remaining(a) + Remaining(b)
  {
    if a == [] {
      assert a + b == b;
    } else {
      assert (a + b)[1..] == a[1..] + b;
      RemainingAppend(a[1..], b);
    }
  }

  /** A single todo counts one when open and nothing when completed. */
  lemma RemainingSingle(t: Todo)
    ensures Remaining([t]) == if t.completed then 0 else 1
  {
  }

  /** The counts of the "N of M tasks remaining" line. */
  datatype Progress = Progress(remaining: nat, total: nat)

  /** The line is shown only under a non-empty list; it never reports more
      open todos than there are todos. */
  function Banner(todos: seq<Todo>): (b: Option<Progress>)
    ensures b.Some? <==> |todos| > 0
    ensures b.Some? ==> b.value.total == |todos| && b.value.remaining <= b.value.total
    ensures b.Some? ==> b.value.remaining == Remaining(todos)
  {
    if |todos| > 0 then Some(Progress(Remaining(todos), |todos|)) else None
  }

  /** Adding a non-blank todo opens one more task. */
  lemma RemainingAdded(todos: seq<Todo>, freshId: string, text: string)
    requires !IsBlank(text)
    ensures Remaining(Added(todos, freshId, text)) == Remaining(todos) + 1
  {
    var r := Added(todos, freshId, text);
    assert r[1..] == todos;
  }

  /** Toggling the one todo that carries an id moves the count by one: up
      when it was completed, down when it was open. */
  lemma {:induction false} RemainingToggledOnce(todos: seq<Todo>, id: string, k: nat)
    requires k < |todos| && todos[k].id == id
    requires forall j :: 0 <= j < |todos| && j != k ==> todos[j].id != id
    ensures Remaining(Toggled(todos, id)) ==
      if todos[k].completed then Remaining(todos) + 1 else Remaining(todos) - 1
  {
    var r := Toggled(todos, id);
    assert r[1..] == Toggled(todos[1..], id);
    if k == 0 {
      ToggledAbsent(todos[1..], id);
    } else {
      RemainingToggledOnce(todos[1..], id, k - 1);
    }
  }

  /** Deleting never opens a task. */
  lemma {:induction false} RemainingDeleted(todos: seq<Todo>, id: string)
    ensures Remaining(Deleted(todos, id)) <= Remaining(todos)
  {
    if todos != [] {
      RemainingDeleted(todos[1..], id);
      var rest := Deleted(todos[1..], id);
      if todos[0].id != id {
        assert ([todos[0]] + rest)[1..] == rest;
      }
    }
  }

  /** The page: the store owned by `useTodos` and the form wired to its
      `addTodo`. */
  class TodoPage {
    const store: TodoStore
    const form: TodoForm

    constructor(slot: Option<Stored>, firstWriteOk: bool, reloadWriteOk: bool)
      ensures fresh(store) && fresh(form)
      ensures store.todos == Hydrated(slot) && form.text == ""
      ensures store.storage ==
        if ReloadsOnMount(slot) && reloadWriteOk then Some(Json(store.todos))
        else if firstWriteOk then Some(Json([]))
        else slot
    {
      store := new TodoStore.Mount(slot, firstWriteOk, reloadWriteOk);
      form := new TodoForm();
    }

    /** Submitting the form: a successful submission adds exactly one todo,
        whose text is the field's contents as typed, and empties the field;
        a blank field changes nothing. */
    method Submit(freshId: string, writeOk: bool) returns (added: bool)
      modifies store, form
      ensures added <==> !IsBlank(old(form.text))
      ensures added ==> store.todos == [Todo(freshId, old(form.text), false)] + old(store.todos)
      ensures added ==> form.text == "" && |store.todos| == |old(store.todos)| + 1
      ensures !added ==> form.text == old(form.text) && store.todos == old(store.todos)
      ensures added ==> store.storage == if writeOk then Some(Json(store.todos)) else old(store.storage)
      ensures !added ==> store.storage == old(store.storage)
    {
      var text := form.HandleSubmit();
      added := text.Some?;
      if added {
        store.AddTodo(freshId, text.value, writeOk);
      }
    }
  }
}
