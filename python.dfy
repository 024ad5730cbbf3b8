/** Value-level stand-ins for the Python runtime behaviour the client and server rely on:
    optional values and the exceptions that indexing and attribute access can raise. */
module Python {

  /** `None` or a present value. */
  datatype Option<+T> = None | Some(value: T)

  /** The exceptions an expression of the modelled code can raise. */
  datatype PyError =
    | IndexError                    // `xs[0]` on an empty list
    | TypeError                     // subscripting `None` or a value that does not take that subscript
    | KeyError(key: string)         // `d[k]` on a dict without key `k`
    | AttributeError(name: string)  // `x.name` on a value without that attribute

  /** Either the value an expression evaluates to, or the exception it raises. */
  datatype Result<+T> = Ok(value: T) | Raise(error: PyError)
}
