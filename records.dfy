/**
 * What `JSON.parse` yields for one stream line, as far as the decoder
 * looks at it, and the display text taken from a parsed record.
 */
module Records {
  import opened Wrappers

  /** The `message` field of a record: only its `content` is read. */
  datatype MessageField = MessageField(content: Option<string>)

  /**
   * The result of `JSON.parse(line)`.
   * - `Malformed`: the parse throws.
   * - `Null`: the line is `null`; reading `parsed.response` then throws
   *   inside the same `try`, so it is handled like a malformed line.
   * - `Record`: any other value. A field that is absent, or whose value is
   *   a falsy non-string, is `None`; a non-object value (a number, a string,
   *   an array) has no such fields at all.
   */
  datatype Json =
    | Malformed
    | Null
    | Record(response: Option<string>, message: Option<MessageField>, error: Option<string>)

  /** JavaScript truthiness of a string-valued field: present and non-empty. */
  predicate Truthy(v: Option<string>) {
    v.Some? && v.value != ""
  }

  predicate HasMessageContent(r: Json)
    requires r.Record?
  {
    r.message.Some? && Truthy(r.message.value.content)
  }

  /** Which field supplies the display text; the first truthy one wins. */
  datatype Source = FromResponse | FromMessage | FromError | Nothing

  function SourceOf(r: Json): Source
    requires r.Record?
  {
    if Truthy(r.response) then FromResponse
    else if HasMessageContent(r) then FromMessage
    else if Truthy(r.error) then FromError
    else Nothing
  }

  const ErrorPrefix: string := "\n\nERRO: "

  /** The display text of a parsed record. */
  function Content(r: Json): (c: string)
    requires r.Record?
    ensures c == "" <==> SourceOf(r) == Nothing
  {
    match SourceOf(r)
    case FromResponse => r.response.value
    case FromMessage => r.message.value.content.value
    case FromError => ErrorPrefix + r.error.value
    case Nothing => ""
  }

  /**
   * Extraction priority: a truthy `response` wins over everything, then a
   * truthy `message.content`, then a truthy `error` shown after the error
   * prefix; a record with none of them gives the empty string.
   */
  lemma ExtractionPriority(r: Json)
    requires r.Record?
    ensures Truthy(r.response) ==> Content(r) == r.response.value
    ensures !Truthy(r.response) && HasMessageContent(r) ==> Content(r) == r.message.value.content.value
    ensures !Truthy(r.response) && !HasMessageContent(r) && Truthy(r.error) ==>
      Content(r) == ErrorPrefix + r.error.value
    ensures !Truthy(r.response) && !HasMessageContent(r) && !Truthy(r.error) ==> Content(r) == ""
  {
  }
}
