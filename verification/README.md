# To-do list bookkeeping, modelled in Dafny

This project models the local side of a small SwiftUI to-do app that keeps its
tasks in a Supabase table. It covers the view model's list of `TodoItem`s and
the three operations that change that list:

- `getTodos` replaces the list after a fetch.
- The nested `createToDo` helper appends the row an insert returns.
- `delete` removes items by optional id.

It also covers the record itself: its four properties, its `CodingKeys`
mapping to table columns, and the sample items used by the previews.

Each database call is an opaque outcome: `Success(value)` or `Failure`. Each
operation is a pure function from (current list, inputs, outcome) to the new
list. Modules:

- `Outcomes` (`outcomes.dfy`): `Option`, the remote `Outcome`, and a `Result` for decoding.
- `Seqs` (`seqs.dfy`): Swift's `removeAll(where:)` as a function, with its order, multiplicity, length and idempotence facts.
- `TodoItems` (`todo_item.dfy`): the record, Swift's 64-bit `Int`, and the sample items.
- `Coding` (`coding.dfy`): the coding keys and the encoder and decoder Swift synthesizes. They work over an abstract column-to-value map.
- `ViewModel` (`todo_list_view_model.dfy`): `init`, `getTodos`, both `createToDo`s and `delete`.

Two behaviours of the code are stated explicitly:

- `delete` compares `Int?` values with Swift's `==`, under which `nil == nil`. So deleting an item that has no id removes every item that has no id. With the sample items, deleting one clears all three.
- The public `createToDo(withTitle:)` only declares a nested function and never calls it. See Findings.

`getTodos`'s select has no ordering clause, so a fetched list may come back in
any order. `delete` only removes items locally: it neither deletes remotely nor
re-fetches. The first sample title is spelled "Chemisty", as in the source.

## Model

| member | source | states |
|---|---|---|
| ViewModel.Init | TodoList/ViewModel/TodoListViewModel.swift:18-19 | The view model starts with exactly the given list, empty by default. |
| ViewModel.InitThenRefresh | TodoList/ViewModel/TodoListViewModel.swift:18-22 | Before its refresh lands, `init` holds exactly the given list, which is empty by default. Once the refresh lands, the list is the fetched one on success and still the given one on failure. |
| ViewModel.GetTodos | TodoList/ViewModel/TodoListViewModel.swift:26-41 | A successful fetch replaces the list wholesale with the fetched rows, with no merging and no reordering. A failed fetch leaves the state exactly as it was. |
| ViewModel.RefreshOverwritesAnyState | TodoList/ViewModel/TodoListViewModel.swift:29-39 | After a successful fetch the state does not depend on what came before: the last successful fetch wins, and a failed fetch after it changes nothing. |
| ViewModel.CreateToDo | TodoList/ViewModel/TodoListViewModel.swift:43-82 | The public operation returns the state unchanged for every title. |
| ViewModel.CreateToDoNeverAdds | TodoList/ViewModel/TodoListViewModel.swift:43-82 | For every title and every database reply, the public operation leaves the list unchanged. When the insert returns one row, it therefore differs from the nested helper it declares. |
| ViewModel.CreateToDoCounterexample | TodoList/ViewModel/TodoListViewModel.swift:43-82 | Concrete case: the database echoes "Buy milk" with id 1. The list stays empty, while the helper would show that row. |
| ViewModel.NewTodo | TodoList/ViewModel/TodoListViewModel.swift:52-55 | The record sent for insertion has no id, the given title, `done == false` and no image path. |
| ViewModel.NewTodoPayload | TodoList/ViewModel/TodoListViewModel.swift:52-64 | The encoded insert request has only the "title" and "done" columns, so the database assigns the id. |
| ViewModel.SingleRow | TodoList/ViewModel/TodoListViewModel.swift:62-68 | `.single()` succeeds exactly when the query returns exactly one row, and yields that row. |
| ViewModel.CreateToDoNested | TodoList/ViewModel/TodoListViewModel.swift:45-80 | If the insert returns a single row, that row is appended at the end and the old list is a prefix of the new one. Otherwise the state is unchanged. |
| ViewModel.CreateToDoNestedEcho | TodoList/ViewModel/TodoListViewModel.swift:62-74 | If the database echoes the request with id n, the appended row has id n, the title, `done == false` and no image. |
| ViewModel.CreateToDoNestedPreservesUniqueIds | TodoList/ViewModel/TodoListViewModel.swift:74 | Appending a returned row whose id is not already in the list keeps saved ids unique. |
| ViewModel.OptionalEquals | TodoList/ViewModel/TodoListViewModel.swift:88 | Swift's `==` on `Int?` is exactly structural equality of optionals, so two nils are equal. |
| ViewModel.Delete | TodoList/ViewModel/TodoListViewModel.swift:84-91 | No remaining item has the deleted item's id. Every item with another id stays, with the same multiplicity, and the result is a subsequence of the old list, so relative order is kept. |
| ViewModel.DeleteIdempotent | TodoList/ViewModel/TodoListViewModel.swift:87-89 | Deleting twice is the same as deleting once. |
| ViewModel.DeleteUnsavedRemovesAllUnsaved | TodoList/ViewModel/TodoListViewModel.swift:87-89 | Deleting an item without an id removes every item without an id and keeps every item that has one. |
| ViewModel.DeleteOneExampleClearsAll | TodoList/ViewModel/TodoListViewModel.swift:87-89 | Starting from the sample items, deleting the first one empties the list. |
| ViewModel.DeletePreservesUniqueIds | TodoList/ViewModel/TodoListViewModel.swift:87-89 | If saved ids are unique before a delete, they are unique after it. |
| ViewModel.DeleteSavedRemovesOne | TodoList/ViewModel/TodoListViewModel.swift:87-89 | With unique saved ids, deleting a saved item that is in the list removes exactly one element. |
| Seqs.RemoveAllIsSubsequence | TodoList/ViewModel/TodoListViewModel.swift:87-89 | `removeAll(where:)` keeps the relative order of the elements it keeps. |
| Seqs.RemoveAllMultiset | TodoList/ViewModel/TodoListViewModel.swift:87-89 | `removeAll(where:)` drops every copy of a matching element and keeps every copy of any other element. |
| TodoItems.ExampleItemsShape | TodoList/Model/TodoItem.swift:26-41 | Every sample item has no id and no image path, and of the three only the second is done. |
| Coding.WireKeyNames | TodoList/Model/TodoItem.swift:18-23 | The column names are "id", "title", "done" and "image_url". |
| Coding.KeyNamed | TodoList/Model/TodoItem.swift:18-23 | Looking up a column name gives the property whose column it is, or nothing when no property uses that name. |
| Coding.StringValueInjective | TodoList/Model/TodoItem.swift:18-23 | No two properties share a column name, and each name looks up to its own property. |
| Coding.Encode | TodoList/Model/TodoItem.swift:10-23 | The payload always has "title" and "done". It has "id" and "image_url" exactly when those are present. It holds no nulls and no foreign columns. |
| Coding.DecodeEncode | TodoList/Model/TodoItem.swift:10-23 | `Decode`, the synthesized `init(from:)`, inverts `Encode`: decoding an encoded record gives the record back. |
| Coding.CanonicalOfEncode | TodoList/Model/TodoItem.swift:10-23 | An encoded record holds only coding-key columns and no nulls, so it is its own canonical form. |
| Coding.EncodeDecode | TodoList/Model/TodoItem.swift:10-23 | When decoding succeeds, re-encoding the result gives exactly the payload's non-null coding-key columns. |
| Coding.OptionalKeysMayBeMissing | TodoList/Model/TodoItem.swift:11-14 | A payload without "id" and "image_url" decodes, with both set to nil. |
| Coding.RequiredKeysMustBePresent | TodoList/Model/TodoItem.swift:11-14 | `Decode` reads the properties in declaration order and reports the first failure. A payload without "title" or without "done" never decodes. Once the id has decoded, the error is key-not-found for the first missing required key. |
| Coding.DecodeIgnoresForeignColumns | TodoList/Model/TodoItem.swift:18-23 | Adding columns that are not coding keys does not change the result of decoding. |

## Left out

- Supabase query building and HTTP (`from`, `select`, `insert`, `execute`, JSON transport). Each call is an opaque `Success`/`Failure` outcome. A fetched list can have any order, because the select has no ordering clause.
- `Task` and async execution. Each operation is modelled as the state once its call has completed. The initializer's refresh task is a separate `GetTodos` step. Races between a fetch and an append are not modelled.
- `debugPrint` logging of errors. It has no effect on the list.
- `update(todo:)` and `downloadTodoItemImage(fromPath:)`. The views call them, but TodoListViewModel.swift does not define them; their behaviour is unknown and not modelled.
- The SwiftUI views, the photo picker and image decoding. These are presentation and binary concerns.
- The trim-whitespace guard on the ADD button. It lives in a view and depends on Foundation's character sets.
- JSON text, and `JSONEncoder`/`JSONDecoder` internals. The wire form is an abstract column-to-value map. Non-integral JSON numbers and the decoder's other strategies are not modelled.
- `Identifiable` and `@Observable` conformances. They affect presentation and change tracking, not list contents.

## Findings

| source | as written | input that shows it | evidently intended | confidence | as-written member | corrected member |
|---|---|---|---|---|---|---|
| TodoList/ViewModel/TodoListViewModel.swift:43-82 | The public `createToDo(withTitle:)` only declares a nested function of the same name and never calls it, so the ADD button never adds anything. | Empty list, title "Buy milk", database returns the row with id 1: the list stays empty. | Call the nested helper, which inserts the record and appends the returned row. | high; not executed | ViewModel.CreateToDoNeverAdds | ViewModel.CreateToDoNested |
