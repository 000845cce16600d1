/** The to-do record as the app stores it, and the sample items used by the
    previews (TodoList/Model/TodoItem.swift). */
module TodoItems {
  import opened Outcomes

  /** The range of Swift's `Int` on the 64-bit platforms the app runs on. */
  predicate IsInt(n: int) {
    -0x8000_0000_0000_0000 <= n < 0x8000_0000_0000_0000
  }

  /** Swift's `Int`. */
  type Int = n: int | IsInt(n)

  /** One to-do. `id` stays `None` until the database has assigned one;
      `imageURL` names a path in blob storage when an image was attached.
      The defaults mirror Swift's memberwise initializer, which lets a caller
      leave out the two optional properties. */
  datatype TodoItem = TodoItem(
    id: Option<Int> := None,
    title: string,
    done: bool,
    imageURL: Option<string> := None)

  const FirstItem := TodoItem(title := "Study for Chemisty quiz", done := false)

  const SecondItem := TodoItem(title := "Finish Computer Science assignment", done := true)

  const ThirdItem := TodoItem(title := "Go for a run around campus", done := false)

  const ExampleItems := [FirstItem, SecondItem, ThirdItem]

  /** The sample items are built without an id or an image path, and only the
      second of the three is already done. */
  lemma ExampleItemsShape()
    ensures forall i :: 0 <= i < |ExampleItems| ==>
      ExampleItems[i].id == None && ExampleItems[i].imageURL == None
    ensures forall i :: 0 <= i < |ExampleItems| ==> (ExampleItems[i].done <==> i == 1)
  {
  }
}
