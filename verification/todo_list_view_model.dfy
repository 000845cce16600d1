/** The view model's bookkeeping of the to-do list
    (TodoList/ViewModel/TodoListViewModel.swift). Every remote call is an
    opaque outcome supplied by the caller; each operation is the state the
    list is in once that call has completed. */
module ViewModel {
  import opened Outcomes
  import opened TodoItems
  import opened Seqs
  import Coding

  /** The observable state: the list of to-dos in display order. */
  datatype TodoListViewModel = TodoListViewModel(todos: seq<TodoItem>)

  /** `init(todos:)` before its refresh task has completed: the given list,
      empty when none is given. */
  function Init(todos: seq<TodoItem> := []): (vm: TodoListViewModel)
    ensures vm.todos == todos
  {
    TodoListViewModel(todos)
  }

  /** `getTodos()` once the select of the whole table has answered: a fetched
      list replaces the local one wholesale; a failure is logged and leaves
      the list as it was. */
  function GetTodos(vm: TodoListViewModel, fetched: Outcome<seq<TodoItem>>): (r: TodoListViewModel)
    ensures fetched.Success? ==> r.todos == fetched.value
    ensures fetched.Failure? ==> r == vm
  {
    match fetched
    case Success(rows) => TodoListViewModel(rows)
    case Failure => vm
  }

  /** The initializer's refresh: before it lands the list is the one given;
      after it lands the list is the fetched one on success and still the
      given one on failure. */
  lemma InitThenRefresh(todos: seq<TodoItem>, fetched: Outcome<seq<TodoItem>>)
    ensures Init().todos == []
    ensures fetched.Success? ==> GetTodos(Init(todos), fetched).todos == fetched.value
    ensures fetched.Failure? ==> GetTodos(Init(todos), fetched).todos == todos
  {
  }

  /** A successful refresh does not depend on the list it replaces: whatever
      happened before, the last successful fetch wins, and a failed fetch
      is invisible. */
  lemma RefreshOverwritesAnyState(a: TodoListViewModel, b: TodoListViewModel,
                                  first: Outcome<seq<TodoItem>>, rows: seq<TodoItem>)
    ensures GetTodos(GetTodos(a, first), Success(rows)) == GetTodos(b, Success(rows))
    ensures GetTodos(GetTodos(a, Success(rows)), Failure) == GetTodos(b, Success(rows))
  {
  }

  /** The public `createToDo(withTitle:)` as written: its body only declares a
      nested function of the same name and never calls it, so it returns
      with the list untouched. */
  function CreateToDo(vm: TodoListViewModel, title: string): (r: TodoListViewModel)
    ensures r == vm
  {
    vm
  }

  /** The record the nested helper sends: no id yet, the given title, not
      done, no image. */
  function NewTodo(title: string): (t: TodoItem)
    ensures t.id == None && t.title == title && !t.done && t.imageURL == None
  {
    TodoItem(title := title, done := false)
  }

  /** The request leaves the id and the image path out of the payload, so the
      database assigns the id. */
  lemma NewTodoPayload(title: string)
    ensures Coding.Encode(NewTodo(title)).Keys
      == {Coding.StringValue(Coding.Title), Coding.StringValue(Coding.Done)}
  {
  }

  /** `.single()`: the query succeeds only when exactly one row comes back. */
  function SingleRow(rows: Outcome<seq<TodoItem>>): (r: Outcome<TodoItem>)
    ensures r.Success? <==> rows.Success? && |rows.value| == 1
    ensures r.Success? ==> r.value == rows.value[0]
  {
    match rows
    case Success(s) => if |s| == 1 then Success(s[0]) else Failure
    case Failure => Failure
  }

  /** The nested `createToDo(withTitle:)` helper, once its insert has
      answered: `insert` is the database's reply to the record it is sent.
      A single returned row is appended at the end; anything else leaves the
      list unchanged. */
  function CreateToDoNested(vm: TodoListViewModel, title: string,
                            insert: TodoItem -> Outcome<seq<TodoItem>>): (r: TodoListViewModel)
    ensures SingleRow(insert(NewTodo(title))).Success? ==>
      && |r.todos| == |vm.todos| + 1
      && r.todos[..|vm.todos|] == vm.todos
      && r.todos[|vm.todos|] == insert(NewTodo(title)).value[0]
    ensures SingleRow(insert(NewTodo(title))).Failure? ==> r == vm
  {
    match SingleRow(insert(NewTodo(title)))
    case Success(row) => TodoListViewModel(vm.todos + [row])
    case Failure => vm
  }

  /** For every title and every database reply, the public operation leaves
      the list as it was, although the helper it declares would have added
      the returned row. */
  lemma CreateToDoNeverAdds(vm: TodoListViewModel, title: string,
                            insert: TodoItem -> Outcome<seq<TodoItem>>)
    ensures CreateToDo(vm, title) == vm
    ensures SingleRow(insert(NewTodo(title))).Success? ==>
      CreateToDo(vm, title) != CreateToDoNested(vm, title, insert)
  {
    if SingleRow(insert(NewTodo(title))).Success? {
      assert |CreateToDoNested(vm, title, insert).todos| != |vm.todos|;
    }
  }

  /** A concrete witness: the database answers by echoing the request with
      id 1, yet the list stays empty; the helper would have shown the row. */
  lemma CreateToDoCounterexample()
    ensures CreateToDo(Init(), "Buy milk").todos == []
    ensures CreateToDoNested(Init(), "Buy milk", (t: TodoItem) => Success([t.(id := Some(1))])).todos
      == [TodoItem(id := Some(1), title := "Buy milk", done := false)]
  {
  }

  /** When the database echoes the request with a fresh id, the appended row
      is the new to-do: that id, the title, not done, no image. */
  lemma CreateToDoNestedEcho(vm: TodoListViewModel, title: string, n: Int)
    ensures CreateToDoNested(vm, title, (t: TodoItem) => Success([t.(id := Some(n))])).todos
      == vm.todos + [TodoItem(id := Some(n), title := title, done := false)]
  {
  }

  /** Swift's `==` on `Int?`: two nils are equal, nil differs from every
      number, and two numbers compare by value. */
  function OptionalEquals(a: Option<Int>, b: Option<Int>): (r: bool)
    ensures r <==> a == b
  {
    match (a, b)
    case (None, None) => true
    case (Some(x), Some(y)) => x == y
    case _ => false
  }

  /** The closure `delete` hands to `removeAll(where:)`. */
  function SameId(id: Option<Int>): TodoItem -> bool
  {
    (item: TodoItem) => OptionalEquals(item.id, id)
  }

  /** `delete(_:)`: every item whose id equals the given item's id, in the
      sense of Swift's `==` on optionals, is removed from the list; the others
      stay, in order. */
  function Delete(vm: TodoListViewModel, todo: TodoItem): (r: TodoListViewModel)
    ensures forall i :: 0 <= i < |r.todos| ==> r.todos[i].id != todo.id
    ensures forall x :: multiset(r.todos)[x] == if x.id == todo.id then 0 else multiset(vm.todos)[x]
    ensures IsSubsequence(r.todos, vm.todos)
  {
    RemoveAllMultiset(vm.todos, SameId(todo.id));
    RemoveAllIsSubsequence(vm.todos, SameId(todo.id));
    TodoListViewModel(RemoveAll(vm.todos, SameId(todo.id)))
  }

  /** Deleting the same item twice is deleting it once. */
  lemma DeleteIdempotent(vm: TodoListViewModel, todo: TodoItem)
    ensures Delete(Delete(vm, todo), todo) == Delete(vm, todo)
  {
    RemoveAllIdempotent(vm.todos, SameId(todo.id));
  }

  /** Deleting an item that has no id yet removes every item without an id,
      and keeps every item that has one. */
  lemma DeleteUnsavedRemovesAllUnsaved(vm: TodoListViewModel, todo: TodoItem)
    requires todo.id == None
    ensures forall x :: x in Delete(vm, todo).todos ==> x.id.Some?
    ensures forall x :: x in vm.todos && x.id.Some? ==> x in Delete(vm, todo).todos
  {
    var r := Delete(vm, todo).todos;
    forall x | x in vm.todos && x.id.Some?
      ensures x in r
    {
      assert multiset(r)[x] == multiset(vm.todos)[x];
    }
  }

  /** The sample items are all unsaved, so deleting any one of them clears
      the whole sample list. */
  lemma DeleteOneExampleClearsAll()
    ensures Delete(Init(ExampleItems), FirstItem).todos == []
  {
    var s := ExampleItems;
    assert forall i :: 0 <= i < |s| ==> SameId(FirstItem.id)(s[i]);
    CountZero(s, SameId(FirstItem.id));
    RemoveAllLength(s, SameId(FirstItem.id));
    assert Count(s, SameId(FirstItem.id)) == Count(s[1..], SameId(FirstItem.id)) + 1;
    assert Count(s[1..], SameId(FirstItem.id)) == Count(s[2..], SameId(FirstItem.id)) + 1;
    assert Count(s[2..], SameId(FirstItem.id)) == Count(s[3..], SameId(FirstItem.id)) + 1;
  }

  /** Every saved item carries an id of its own. */
  ghost predicate UniqueIds(s: seq<TodoItem>)
  {
    forall i, j :: 0 <= i < j < |s| && s[i].id.Some? ==> s[i].id != s[j].id
  }

  /** Removing items from a list whose saved ids are unique keeps them
      unique. */
  lemma DeletePreservesUniqueIds(vm: TodoListViewModel, todo: TodoItem)
    requires UniqueIds(vm.todos)
    ensures UniqueIds(Delete(vm, todo).todos)
  {
    SubsequencePreservesUniqueIds(Delete(vm, todo).todos, vm.todos);
  }

  lemma {:induction false} SubsequencePreservesUniqueIds(a: seq<TodoItem>, b: seq<TodoItem>)
    requires IsSubsequence(a, b) && UniqueIds(b)
    ensures UniqueIds(a)
    decreases |b|
  {
    if a != [] && b != [] {
      assert UniqueIds(b[1..]) by {
        forall i, j | 0 <= i < j < |b[1..]| && b[1..][i].id.Some?
          ensures b[1..][i].id != b[1..][j].id
        {
          assert b[1..][i] == b[i + 1] && b[1..][j] == b[j + 1];
        }
      }
      if a[0] == b[0] && IsSubsequence(a[1..], b[1..]) {
        SubsequencePreservesUniqueIds(a[1..], b[1..]);
        SubsequenceElements(a[1..], b[1..]);
        forall i, j | 0 <= i < j < |a| && a[i].id.Some?
          ensures a[i].id != a[j].id
        {
          if i == 0 {
            assert a[j] == a[1..][j - 1];
            var k :| 0 <= k < |b[1..]| && b[1..][k] == a[j];
            assert b[k + 1] == a[j];
          } else {
            assert a[i] == a[1..][i - 1] && a[j] == a[1..][j - 1];
          }
        }
      } else {
        SubsequencePreservesUniqueIds(a, b[1..]);
      }
    }
  }

  /** Every element of a subsequence is an element of the whole. */
  lemma {:induction false} SubsequenceElements<T>(a: seq<T>, b: seq<T>)
    requires IsSubsequence(a, b)
    ensures forall i :: 0 <= i < |a| ==> exists k :: 0 <= k < |b| && b[k] == a[i]
    decreases |b|
  {
    if a != [] && b != [] {
      if a[0] == b[0] && IsSubsequence(a[1..], b[1..]) {
        SubsequenceElements(a[1..], b[1..]);
        forall i | 0 <= i < |a|
          ensures exists k :: 0 <= k < |b| && b[k] == a[i]
        {
          if i == 0 {
            assert b[0] == a[0];
          } else {
            assert a[i] == a[1..][i - 1];
            var k :| 0 <= k < |b[1..]| && b[1..][k] == a[1..][i - 1];
            assert b[k + 1] == a[i];
          }
        }
      } else {
        SubsequenceElements(a, b[1..]);
        forall i | 0 <= i < |a|
          ensures exists k :: 0 <= k < |b| && b[k] == a[i]
        {
          var k :| 0 <= k < |b[1..]| && b[1..][k] == a[i];
          assert b[k + 1] == a[i];
        }
      }
    }
  }

  /** In a list whose saved ids are unique, deleting a saved item that is in
      the list removes exactly one element. */
  lemma DeleteSavedRemovesOne(vm: TodoListViewModel, todo: TodoItem)
    requires UniqueIds(vm.todos)
    requires todo in vm.todos && todo.id.Some?
    ensures |Delete(vm, todo).todos| == |vm.todos| - 1
  {
    RemoveAllLength(vm.todos, SameId(todo.id));
    CountUniqueId(vm.todos, todo);
  }

  lemma {:induction false} CountUniqueId(s: seq<TodoItem>, todo: TodoItem)
    requires UniqueIds(s)
    requires todo in s && todo.id.Some?
    ensures Count(s, SameId(todo.id)) == 1
  {
    assert s == [s[0]] + s[1..];
    assert UniqueIds(s[1..]) by {
      forall i, j | 0 <= i < j < |s[1..]| && s[1..][i].id.Some?
        ensures s[1..][i].id != s[1..][j].id
      {
        assert s[1..][i] == s[i + 1] && s[1..][j] == s[j + 1];
      }
    }
    if s[0].id == todo.id {
      forall i | 0 <= i < |s[1..]|
        ensures !SameId(todo.id)(s[1..][i])
      {
        assert s[1..][i] == s[i + 1];
      }
      CountZero(s[1..], SameId(todo.id));
    } else {
      assert todo in s[1..];
      CountUniqueId(s[1..], todo);
    }
  }

  /** Appending the row the database returned keeps saved ids unique when
      that row's id is not already in the list. */
  lemma CreateToDoNestedPreservesUniqueIds(vm: TodoListViewModel, title: string,
                                           insert: TodoItem -> Outcome<seq<TodoItem>>)
    requires UniqueIds(vm.todos)
    requires SingleRow(insert(NewTodo(title))).Success? ==>
      forall i :: 0 <= i < |vm.todos| ==> vm.todos[i].id != insert(NewTodo(title)).value[0].id
    ensures UniqueIds(CreateToDoNested(vm, title, insert).todos)
  {
  }
}
