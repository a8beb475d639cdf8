/** The shapes of a chat request's `messages` and `system` values as the handlers see
    them after JSON decoding. */
module Messages {
  import opened Wrappers

  /** A `content` (or `system`) value. */
  datatype Content =
    | Str(s: string)                      // a JSON string
    | List(items: seq<Item>)              // a JSON array of content blocks
    | Other(shown: string, truthy: bool)  // any other JSON value: its `str()` and its truth value
  {
    /** Python truthiness of the value (`if system:`). */
    predicate Truthy() {
      match this
      case Str(s) => s != []
      case List(items) => items != []
      case Other(_, t) => t
    }
  }

  /** One element of a content array. A JSON object is a `Dict` whose keys of interest
      are `type`, `text`, `content`, `name` and `input` (the last already JSON-encoded,
      as `json.dumps` would render it); a missing key is `None`. */
  datatype Item =
    | NonDict(shown: string)  // any element that is not an object, with its `str()`
    | Dict(kind: Option<string>, text: Option<string>, content: Option<Content>,
           name: Option<string>, input: Option<string>)

  /** One chat message; `role` or `content` is `None` when the key is missing. */
  datatype Message = Message(role: Option<string>, content: Option<Content>)
}
