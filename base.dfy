/** Shared value types: Go's optional error, a value-or-error result, the
    errors the connector can return, and the (items, next token, error)
    triple that every paged call returns. */
module Base {

  datatype Option<+T> = None | Some(value: T)

  datatype Result<+T> = Ok(value: T) | Err(error: Error)

  /** The error values of the core. */
  datatype Error =
    /** strconv.Atoi's "invalid syntax" error for the string `num`. */
    | SyntaxError(num: string)
    /** An error reported by the remote PrivX API, passed through unchanged. */
    | Remote(detail: string)
    /** An error built with fmt.Errorf by the connector itself. */
    | Errorf(message: string)

  /** A page of results: Go's ([]T, string, error) return. On an error the
      items are nil (the empty sequence) and the token is "". */
  datatype Page<+T> = Page(items: seq<T>, nextToken: string, err: Option<Error>)
}
