/** The HTTP surface both route handlers share: JSON responses and JavaScript truthiness. */
module Http {
  import opened Wrappers

  /** The JSON payload of a response. */
  datatype Body =
    | Error(message: string)   // `{ error: message }`
    | Url(url: string)         // `{ url: session.url }`
    | Received                 // `{ received: true }`

  datatype Response = Response(status: int, body: Body)

  /** JavaScript truthiness of an optional string: `undefined`, `null` and `""` are falsy. */
  predicate Truthy(s: Option<string>) {
    s.Some? && s.value != ""
  }
}
