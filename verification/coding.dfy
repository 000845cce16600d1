/** The wire shape of a to-do: the `CodingKeys` mapping between properties
    and column names, and the encoding and decoding Swift synthesizes for a
    `Codable` struct, over an abstract key/value payload rather than JSON
    text. */
module Coding {
  import opened Outcomes
  import opened TodoItems

  /** One case per stored property of `TodoItem`. */
  datatype CodingKey = Id | Title | Done | ImageURL

  /** The column name each property travels under. Only the image path is
      renamed, from camel case to the table's snake case. */
  function StringValue(k: CodingKey): string
  {
    match k
    case Id => "id"
    case Title => "title"
    case Done => "done"
    case ImageURL => "image_url"
  }

  /** `CodingKeys(stringValue:)`: the property a column name belongs to, if
      any. */
  function KeyNamed(s: string): (k: Option<CodingKey>)
    ensures k.Some? ==> StringValue(k.value) == s
    ensures k.None? ==> forall c: CodingKey :: StringValue(c) != s
  {
    if s == "id" then Some(Id)
    else if s == "title" then Some(Title)
    else if s == "done" then Some(Done)
    else if s == "image_url" then Some(ImageURL)
    else None
  }

  /** The column names are exactly "id", "title", "done" and "image_url". */
  lemma WireKeyNames()
    ensures StringValue(Id) == "id" && StringValue(Title) == "title"
    ensures StringValue(Done) == "done" && StringValue(ImageURL) == "image_url"
  {
  }

  /** No two properties share a column name, and looking a property's column
      name up gives that property back. */
  lemma StringValueInjective(a: CodingKey, b: CodingKey)
    ensures StringValue(a) == StringValue(b) ==> a == b
    ensures KeyNamed(StringValue(a)) == Some(a)
  {
  }

  /** A value as the payload carries it. */
  datatype WireValue = Null | Bool(b: bool) | Number(n: int) | Text(s: string)

  /** A decoded-but-untyped record: column name to value. */
  type Payload = map<string, WireValue>

  /** Why decoding a payload into a `TodoItem` fails, and at which key. */
  datatype DecodingError =
    | KeyNotFound(key: CodingKey)
    | ValueNotFound(key: CodingKey)
    | TypeMismatch(key: CodingKey)
    | DataCorrupted(key: CodingKey)

  /** The synthesized `encode(to:)`: required properties always written,
      optional ones written only when present (`encodeIfPresent`). */
  function Encode(t: TodoItem): (m: Payload)
    ensures forall k :: k in m ==> KeyNamed(k).Some? && m[k] != Null
    ensures StringValue(Title) in m && StringValue(Done) in m
    ensures StringValue(Id) in m <==> t.id.Some?
    ensures StringValue(ImageURL) in m <==> t.imageURL.Some?
  {
    var required := map[StringValue(Title) := Text(t.title), StringValue(Done) := Bool(t.done)];
    var withId := if t.id.Some? then required[StringValue(Id) := Number(t.id.value)] else required;
    if t.imageURL.Some? then withId[StringValue(ImageURL) := Text(t.imageURL.value)] else withId
  }

  /** `decodeIfPresent(Int.self, forKey:)`: a missing key or a null is `nil`. */
  function DecodeIntIfPresent(m: Payload, k: CodingKey): Result<Option<Int>, DecodingError>
  {
    var name := StringValue(k);
    if name !in m then Ok(None)
    else match m[name]
      case Null => Ok(None)
      case Number(n) => if IsInt(n) then Ok(Some(n)) else Err(DataCorrupted(k))
      case _ => Err(TypeMismatch(k))
  }

  /** `decodeIfPresent(String.self, forKey:)`. */
  function DecodeStringIfPresent(m: Payload, k: CodingKey): Result<Option<string>, DecodingError>
  {
    var name := StringValue(k);
    if name !in m then Ok(None)
    else match m[name]
      case Null => Ok(None)
      case Text(s) => Ok(Some(s))
      case _ => Err(TypeMismatch(k))
  }

  /** `decode(String.self, forKey:)`: the key must be there and not null. */
  function DecodeString(m: Payload, k: CodingKey): Result<string, DecodingError>
  {
    var name := StringValue(k);
    if name !in m then Err(KeyNotFound(k))
    else match m[name]
      case Null => Err(ValueNotFound(k))
      case Text(s) => Ok(s)
      case _ => Err(TypeMismatch(k))
  }

  /** `decode(Bool.self, forKey:)`. */
  function DecodeBool(m: Payload, k: CodingKey): Result<bool, DecodingError>
  {
    var name := StringValue(k);
    if name !in m then Err(KeyNotFound(k))
    else match m[name]
      case Null => Err(ValueNotFound(k))
      case Bool(b) => Ok(b)
      case _ => Err(TypeMismatch(k))
  }

  /** The synthesized `init(from:)`: properties are decoded in declaration
      order and the first failure is the one reported; columns that are not
      coding keys are ignored. */
  function Decode(m: Payload): Result<TodoItem, DecodingError>
  {
    var id :- DecodeIntIfPresent(m, Id);
    var title :- DecodeString(m, Title);
    var done :- DecodeBool(m, Done);
    var imageURL :- DecodeStringIfPresent(m, ImageURL);
    Ok(TodoItem(id, title, done, imageURL))
  }

  /** The part of a payload decoding looks at and encoding reproduces: the
      coding-key columns that are not null. */
  function Canonical(m: Payload): Payload
  {
    map k | k in m && KeyNamed(k).Some? && m[k] != Null :: m[k]
  }

  /** An encoded record is already canonical: it holds only coding-key
      columns and no nulls. */
  lemma CanonicalOfEncode(t: TodoItem)
    ensures Canonical(Encode(t)) == Encode(t)
  {
  }

  /** Encoding a record and decoding the payload gives the record back. */
  lemma DecodeEncode(t: TodoItem)
    ensures Decode(Encode(t)) == Ok(t)
  {
  }

  /** Decoding succeeds only on a payload whose coding-key columns re-encode
      to exactly what was read: nothing is lost or invented except nulls
      and foreign columns. */
  lemma EncodeDecode(m: Payload)
    requires Decode(m).Ok?
    ensures Encode(Decode(m).value) == Canonical(m)
  {
  }

  /** The two optional columns may be missing: they decode to `nil`. */
  lemma OptionalKeysMayBeMissing(title: string, done: bool)
    ensures Decode(map[StringValue(Title) := Text(title), StringValue(Done) := Bool(done)])
      == Ok(TodoItem(title := title, done := done))
  {
  }

  /** A payload without a title or without a done flag never decodes; once
      the id has decoded, the error names the first missing required key. */
  lemma RequiredKeysMustBePresent(m: Payload)
    ensures StringValue(Title) !in m || StringValue(Done) !in m ==> Decode(m).Err?
    ensures DecodeIntIfPresent(m, Id).Ok? && StringValue(Title) !in m ==>
      Decode(m) == Err(KeyNotFound(Title))
    ensures (DecodeIntIfPresent(m, Id).Ok? && DecodeString(m, Title).Ok? && StringValue(Done) !in m)
      ==> Decode(m) == Err(KeyNotFound(Done))
  {
  }

  /** Columns that are not coding keys have no effect on decoding. */
  lemma DecodeIgnoresForeignColumns(m: Payload, extra: Payload)
    requires forall k :: k in extra ==> KeyNamed(k).None?
    ensures Decode(m + extra) == Decode(m)
  {
    forall c: CodingKey
      ensures StringValue(c) !in extra
    {
      StringValueInjective(c, c);
    }
  }
}
