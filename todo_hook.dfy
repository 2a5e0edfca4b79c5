/**
 * The todo store of the `useTodos` hook: an ordered list of todos, newest
 * first, kept in step with the "todos" slot of the browser's local storage.
 * The list updaters are pure functions over the previous list; the hook's
 * state slot and the storage slot are the fields of `TodoStore`.
 */
module TodoHook {
  import opened Wrappers
  import opened Trimming

  datatype Todo = Todo(id: string, text: string, completed: bool)

  /** What `addTodo` makes of the list: a blank text changes nothing, any other
      text is prepended, untrimmed, as a new open todo with the given id. */
  function Added(todos: seq<Todo>, freshId: string, text: string): (r: seq<Todo>)
    ensures IsBlank(text) ==> r == todos
    ensures !IsBlank(text) ==> |r| == |todos| + 1 && r[1..] == todos
    ensures !IsBlank(text) ==> r[0].id == freshId && r[0].text == text && !r[0].completed
  {
    if IsBlank(text) then todos else [Todo(freshId, text, false)] + todos
  }

  /** The todo `toggleTodo` makes of `t`: flipped when its id matches. */
  function Flipped(t: Todo, id: string): Todo {
    if t.id == id then t.(completed := !t.completed) else t
  }

  /** What `toggleTodo` makes of the list: same length, ids, texts and order,
      and `completed` flipped on exactly the items whose id matches (every one
      of them, duplicates included). */
  function Toggled(todos: seq<Todo>, id: string): (r: seq<Todo>)
    ensures |r| == |todos|
    ensures forall i :: 0 <= i < |r| ==>
      && r[i].id == todos[i].id
      && r[i].text == todos[i].text
      && (r[i].completed <==> (todos[i].completed != (todos[i].id == id)))
  {
    if todos == [] then [] else [Flipped(todos[0], id)] + Toggled(todos[1..], id)
  }

  /** What `deleteTodo` makes of the list: no item with the id is left, every
      other item is kept with its multiplicity, and the list never grows. The
      relative order of what is kept is `DeletedDistributes`. */
  function Deleted(todos: seq<Todo>, id: string): (r: seq<Todo>)
    ensures |r| <= |todos|
    ensures forall t :: t in r <==> t in todos && t.id != id
    ensures forall t :: multiset(r)[t] == if t.id == id then 0 else multiset(todos)[t]
  {
    if todos == [] then []
    else
      var rest := Deleted(todos[1..], id);
      assert todos == [todos[0]] + todos[1..];
      assert multiset(todos) == multiset{todos[0]} + multiset(todos[1..]);
      if todos[0].id == id then rest else [todos[0]] + rest
  }

  /** True when no item of the list carries the id. */
  predicate Absent(todos: seq<Todo>, id: string) {
    forall i :: 0 <= i < |todos| ==> todos[i].id != id
  }

  /** Toggling the same id twice gives back the original list. */
  lemma ToggledTwice(todos: seq<Todo>, id: string)
    ensures Toggled(Toggled(todos, id), id) == todos
  {
    var r := Toggled(Toggled(todos, id), id);
    assert forall i :: 0 <= i < |r| ==> r[i] == todos[i];
  }

  /** Toggling an id that no item carries changes nothing. */
  lemma ToggledAbsent(todos: seq<Todo>, id: string)
    requires Absent(todos, id)
    ensures Toggled(todos, id) == todos
  {
    var r := Toggled(todos, id);
    assert forall i :: 0 <= i < |r| ==> r[i] == todos[i];
  }

  /** Deleting keeps the relative order: deleting from a concatenation is
      concatenating the deletions. */
  lemma {:induction false} DeletedDistributes(a: seq<Todo>, b: seq<Todo>, id: string)
    ensures Deleted(a + b, id) == Deleted(a, id) + Deleted(b, id)
  {
    if a == [] {
      assert a + b == b;
    } else {
      assert (a + b)[1..] == a[1..] + b;
      DeletedDistributes(a[1..], b, id);
    }
  }

  /** Deleting an id that no item carries changes nothing. */
  lemma {:induction false} DeletedAbsent(todos: seq<Todo>, id: string)
    requires Absent(todos, id)
    ensures Deleted(todos, id) == todos
  {
    if todos != [] {
      DeletedAbsent(todos[1..], id);
    }
  }

  /** Deleting the same id twice is deleting it once. */
  lemma DeletedIdempotent(todos: seq<Todo>, id: string)
    ensures Deleted(Deleted(todos, id), id) == Deleted(todos, id)
  {
    var r := Deleted(todos, id);
    assert forall i :: 0 <= i < |r| ==> r[i] in r;
    DeletedAbsent(r, id);
  }

  /** What the "todos" slot of local storage holds, as `JSON.parse` sees it:
      the empty string (falsy, so skipped), text that does not parse, or the
      JSON text of a list of todos. */
  datatype Stored = EmptyString | Unparsable | Json(items: seq<Todo>)

  /** The list after the load-on-mount effect, which starts from the empty
      list: an absent or empty slot leaves it empty, a parse failure resets it
      to empty, and a parsed slot replaces it. */
  function Hydrated(slot: Option<Stored>): (r: seq<Todo>)
    ensures slot == Some(Json(r)) || r == []
    ensures forall xs :: slot == Some(Json(xs)) ==> r == xs
  {
    match slot
    case Some(Json(items)) => items
    case Some(Unparsable) => []
    case _ => []
  }

  /** Whether the load effect sets the list, so that the list is persisted a
      second time: the slot holds non-empty text. */
  predicate ReloadsOnMount(slot: Option<Stored>) {
    slot.Some? && slot.value != EmptyString
  }

  /** The hook's state: the `todos` state slot and the storage slot. */
  class TodoStore {
    var todos: seq<Todo>
    var storage: Option<Stored>

    /** The storage slot holds exactly the current list. */
    predicate Synced()
      reads this
    {
      storage == Some(Json(todos))
    }

    /** Mounting: the load effect reads the slot, then the persist effect runs
        for the first render and writes the empty list. When the slot held
        text, the loaded list (or the empty list, after a parse failure) is
        set, and the persist effect runs once more. Each write may fail on its
        own, leaving the slot as it was. */
    constructor Mount(slot: Option<Stored>, firstWriteOk: bool, reloadWriteOk: bool)
      ensures todos == Hydrated(slot)
      ensures storage ==
        if ReloadsOnMount(slot) && reloadWriteOk then Some(Json(todos))
        else if firstWriteOk then Some(Json([]))
        else slot
    {
      todos := [];
      storage := slot;
      new;
      var stored := slot;
      Persist(firstWriteOk);
      match stored {
        case Some(Json(items)) =>
          todos := items;
          Persist(reloadWriteOk);
        case Some(Unparsable) =>
          todos := [];
          Persist(reloadWriteOk);
        case _ =>
      }
    }

    /** The persist-on-change effect: write the whole list to the slot; a write
        that throws is logged and the slot keeps its old value. */
    method Persist(writeOk: bool)
      modifies this`storage
      ensures storage == if writeOk then Some(Json(todos)) else old(storage)
    {
      if writeOk {
        storage := Some(Json(todos));
      }
    }

    method AddTodo(freshId: string, text: string, writeOk: bool)
      modifies this
      ensures todos == Added(old(todos), freshId, text)
      ensures storage == if IsBlank(text) || !writeOk then old(storage) else Some(Json(todos))
      ensures old(Synced()) && writeOk ==> Synced()
    {
      if Trim(text) == "" {
        return;
      }
      var newTodo := Todo(freshId, text, false);
      todos := [newTodo] + todos;
      Persist(writeOk);
    }

    method ToggleTodo(id: string, writeOk: bool)
      modifies this
      ensures todos == Toggled(old(todos), id)
      ensures storage == if writeOk then Some(Json(todos)) else old(storage)
    {
      todos := Toggled(todos, id);
      Persist(writeOk);
    }

    method DeleteTodo(id: string, writeOk: bool)
      modifies this
      ensures todos == Deleted(old(todos), id)
      ensures storage == if writeOk then Some(Json(todos)) else old(storage)
    {
      todos := Deleted(todos, id);
      Persist(writeOk);
    }
  }

  /** Whatever was persisted, mounting again from that slot restores it. */
  lemma RemountRestores(todos: seq<Todo>)
    ensures Hydrated(Some(Json(todos))) == todos
  {
  }
}
